/** Finding the JSON array inside an archive's JavaScript wrapper, and dropping retweets.

  The program applies the regular expression `=\s*(\[.*\])` with leftmost-greedy semantics and falls back to
  the span from the first `[` to the last `]`.  Text is a sequence of characters. */
module Parsing {
  import opened Model

  /** What `\s` matches. */
  predicate Space(c: char) {
    c == ' ' || c == '\t' || c == '\n' || c == '\r' || c == '\U{000C}'
  }

  // ------------------------------------------------------------------ what a match is

  /** The expression matches at `i` with the group spanning `j` to `k`, both included. */
  ghost predicate Matches(s: string, i: int, j: int, k: int) {
    && 0 <= i < j < k < |s|
    && s[i] == '='
    && (forall m :: i < m < j ==> Space(s[m]))
    && s[j] == '[' && s[k] == ']'
    && (forall m :: j < m < k ==> s[m] != '\n')
  }

  ghost predicate MatchesSomewhere(s: string) {
    exists i, j, k :: Matches(s, i, j, k)
  }

  /** The match that leftmost-greedy semantics picks: no match begins earlier, and none that begins there
      takes more. */
  ghost predicate Chosen(s: string, i: int, j: int, k: int) {
    && Matches(s, i, j, k)
    && (forall i', j', k' :: Matches(s, i', j', k') ==> i <= i')
    && (forall j', k' :: Matches(s, i, j', k') ==> k' <= k)
  }

  // ------------------------------------------------------------------ the search

  /** First position from `i` on that is not white space. */
  function SkipSpace(s: string, i: nat): (j: nat)
    requires i <= |s|
    ensures i <= j <= |s| && (forall m :: i <= m < j ==> Space(s[m])) && (j < |s| ==> !Space(s[j]))
    decreases |s| - i
  {
    if i < |s| && Space(s[i]) then SkipSpace(s, i + 1) else i
  }

  /** Last `]` on the line that position `i` is on, at or after `i`; -1 if there is none. */
  function LastClose(s: string, i: nat): (k: int)
    requires i <= |s|
    ensures k == -1 || (i <= k < |s| && s[k] == ']' && forall m :: i <= m < k ==> s[m] != '\n')
    ensures forall k' :: i <= k' < |s| && s[k'] == ']' && (forall m :: i <= m < k' ==> s[m] != '\n') ==> k' <= k
    decreases |s| - i
  {
    if i == |s| || s[i] == '\n' then -1
    else
      var later := LastClose(s, i + 1);
      if later >= 0 then later else if s[i] == ']' then i else -1
  }

  datatype Span = NoSpan | Span(from: nat, to: nat)

  /** The group matched by an `=` at position `i`. */
  function GroupAt(s: string, i: nat): Span
    requires i < |s|
  {
    if s[i] != '=' then NoSpan
    else
      var j := SkipSpace(s, i + 1);
      if j < |s| && s[j] == '[' && LastClose(s, j + 1) >= 0 then Span(j, LastClose(s, j + 1)) else NoSpan
  }

  /** The group of the first match from position `i` on. */
  function FirstGroup(s: string, i: nat): Span
    requires i <= |s|
    decreases |s| - i
  {
    if i == |s| then NoSpan
    else if GroupAt(s, i).Span? then GroupAt(s, i)
    else FirstGroup(s, i + 1)
  }

  function FirstIndex(s: string, c: char): (i: int)
    ensures i == -1 ==> forall m :: 0 <= m < |s| ==> s[m] != c
    ensures i != -1 ==> 0 <= i < |s| && s[i] == c && forall m :: 0 <= m < i ==> s[m] != c
  {
    if s == [] then -1
    else if s[0] == c then 0
    else
      var r := FirstIndex(s[1..], c);
      assert forall m :: 1 <= m < |s| ==> s[m] == s[1..][m - 1];
      if r == -1 then -1 else r + 1
  }

  function LastIndex(s: string, c: char): (i: int)
    ensures i == -1 ==> forall m :: 0 <= m < |s| ==> s[m] != c
    ensures i != -1 ==> 0 <= i < |s| && s[i] == c && forall m :: i < m < |s| ==> s[m] != c
  {
    if s == [] then -1
    else if s[|s| - 1] == c then |s| - 1
    else
      assert forall m :: 0 <= m < |s| - 1 ==> s[m] == s[..|s| - 1][m];
      LastIndex(s[..|s| - 1], c)
  }

  function ExtractJson(content: string): string {
    match FirstGroup(content, 0)
    case Span(from, to) => if from <= to < |content| then content[from..to + 1] else ""
    case NoSpan =>
      var start, end := FirstIndex(content, '['), LastIndex(content, ']');
      if start != -1 && end != -1 && end > start then content[start..end + 1] else ""
  }

  // ------------------------------------------------------------------ the search finds the chosen match

  lemma GroupIsGreedy(s: string, i: nat)
    requires i < |s|
    ensures GroupAt(s, i).Span? ==> Matches(s, i, GroupAt(s, i).from, GroupAt(s, i).to)
    ensures forall j, k :: Matches(s, i, j, k) ==>
              GroupAt(s, i).Span? && j == GroupAt(s, i).from && k <= GroupAt(s, i).to
  {
    forall j, k | Matches(s, i, j, k)
      ensures GroupAt(s, i).Span? && j == GroupAt(s, i).from && k <= GroupAt(s, i).to
    {
      var p := SkipSpace(s, i + 1);
      assert !Space('[');
      assert j <= p;
      assert p <= j;
    }
  }

  lemma {:induction false} FirstGroupIsLeftmost(s: string, n: nat)
    requires n <= |s|
    ensures FirstGroup(s, n).NoSpan? ==> forall i, j, k :: n <= i && Matches(s, i, j, k) ==> false
    ensures FirstGroup(s, n).Span? ==>
              exists i :: && n <= i && Matches(s, i, FirstGroup(s, n).from, FirstGroup(s, n).to)
                          && (forall i', j, k :: n <= i' && Matches(s, i', j, k) ==> i <= i')
                          && (forall j, k :: Matches(s, i, j, k) ==> k <= FirstGroup(s, n).to)
    decreases |s| - n
  {
    if n == |s| {
    } else {
      GroupIsGreedy(s, n);
      if GroupAt(s, n).NoSpan? {
        FirstGroupIsLeftmost(s, n + 1);
      }
    }
  }

  /** The search implements the regular expression: the group it returns is that of the chosen match, and it
      returns none exactly when the expression matches nowhere. */
  lemma SearchFindsChosenMatch(s: string)
    ensures FirstGroup(s, 0).NoSpan? <==> !MatchesSomewhere(s)
    ensures FirstGroup(s, 0).Span? ==> exists i :: Chosen(s, i, FirstGroup(s, 0).from, FirstGroup(s, 0).to)
  {
    FirstGroupIsLeftmost(s, 0);
    if FirstGroup(s, 0).Span? {
      var j, k := FirstGroup(s, 0).from, FirstGroup(s, 0).to;
      var i :| 0 <= i && Matches(s, i, j, k)
               && (forall i', j', k' :: 0 <= i' && Matches(s, i', j', k') ==> i <= i')
               && (forall j', k' :: Matches(s, i, j', k') ==> k' <= k);
      assert Chosen(s, i, j, k);
    }
  }

  lemma ChosenIsUnique(s: string, i: int, j: int, k: int, i': int, j': int, k': int)
    requires Chosen(s, i, j, k) && Chosen(s, i', j', k')
    ensures i == i' && j == j' && k == k'
  {
    assert i == i';
    SameOpening(s, i, j, k, j', k');
  }

  /** With a match anywhere, extraction is the group of the chosen one. */
  lemma ExtractOfMatch(s: string, i: int, j: int, k: int)
    requires Chosen(s, i, j, k)
    ensures ExtractJson(s) == s[j..k + 1]
  {
    SearchFindsChosenMatch(s);
    var i' :| Chosen(s, i', FirstGroup(s, 0).from, FirstGroup(s, 0).to);
    ChosenIsUnique(s, i, j, k, i', FirstGroup(s, 0).from, FirstGroup(s, 0).to);
  }

  // ------------------------------------------------------------------ round trips

  predicate Bracketed(json: string) {
    |json| >= 2 && json[0] == '[' && json[|json| - 1] == ']'
  }

  /** Blanks, tabs, line feeds, carriage returns and form feeds. */
  predicate AllSpace(s: string) {
    forall c :: c in s ==> c in " \t\n\r\U{000C}"
  }

  /** No `]` on the rest of the line that `suffix` begins on. */
  predicate NoCloseOnFirstLine(suffix: string) {
    forall k :: 0 <= k < |suffix| && suffix[k] == ']' ==> exists m :: 0 <= m < k && suffix[m] == '\n'
  }

  /** A wrapped array on one line is extracted exactly. */
  lemma OneLineRoundTrip(prefix: string, space: string, json: string, suffix: string)
    requires '=' !in prefix && AllSpace(space) && NoCloseOnFirstLine(suffix)
    requires Bracketed(json) && '\n' !in json
    ensures ExtractJson(prefix + "=" + space + json + suffix) == json
  {
    var s := prefix + "=" + space + json + suffix;
    var i := |prefix|;
    var j := i + 1 + |space|;
    var k := j + |json| - 1;
    assert s[i] == '=' && s[j..k + 1] == json;
    assert s[j] == json[0] && s[k] == json[|json| - 1];
    forall m | i < m < j ensures Space(s[m]) {
      assert s[m] == space[m - i - 1] && space[m - i - 1] in space;
    }
    forall m | j < m < k ensures s[m] != '\n' {
      assert s[m] == json[m - j] && json[m - j] in json;
    }
    assert Matches(s, i, j, k);
    forall i', j', k' | Matches(s, i', j', k') ensures i <= i' {
      assert forall m :: 0 <= m < i ==> s[m] == prefix[m] && prefix[m] in prefix;
    }
    forall j', k' | Matches(s, i, j', k') ensures k' <= k {
      SameOpening(s, i, j, k, j', k');
      assert forall m :: 0 <= m < |suffix| ==> s[k + 1 + m] == suffix[m];
    }
    ExtractOfMatch(s, i, j, k);
  }

  lemma SameOpening(s: string, i: int, j: int, k: int, j': int, k': int)
    requires Matches(s, i, j, k) && Matches(s, i, j', k')
    ensures j == j'
  {
    assert !Space('[') && s[j] == s[j'] == '[';
  }

  /** The group of a match is on one line. */
  lemma MatchHasNoNewline(s: string)
    requires MatchesSomewhere(s)
    ensures '\n' !in ExtractJson(s)
  {
    SearchFindsChosenMatch(s);
    var j, k := FirstGroup(s, 0).from, FirstGroup(s, 0).to;
    var i :| Chosen(s, i, j, k);
    ExtractOfMatch(s, i, j, k);
    forall m | j <= m <= k ensures s[m] != '\n' {
    }
  }

  lemma FallbackIsWhole(prefix: string, json: string, suffix: string)
    requires '[' !in prefix && ']' !in suffix && Bracketed(json)
    requires !MatchesSomewhere(prefix + json + suffix)
    ensures ExtractJson(prefix + json + suffix) == json
  {
    var s := prefix + json + suffix;
    SearchFindsChosenMatch(s);
    var j, k := |prefix|, |prefix| + |json| - 1;
    assert s[j..k + 1] == json;
    assert s[j] == json[0] && s[k] == json[|json| - 1];
    assert forall m :: 0 <= m < |prefix| ==> s[m] == prefix[m] && prefix[m] in prefix;
    assert forall m :: 0 <= m < |suffix| ==> s[k + 1 + m] == suffix[m] && suffix[m] in suffix;
    assert FirstIndex(s, '[') == j && LastIndex(s, ']') == k;
  }

  /** An array spread over several lines is extracted exactly when the expression matches nowhere in the file:
      a match, such as `= [x]` inside a tweet, would be returned instead. */
  lemma MultiLineRoundTripIff(prefix: string, json: string, suffix: string)
    requires '[' !in prefix && ']' !in suffix
    requires Bracketed(json) && '\n' in json
    ensures ExtractJson(prefix + json + suffix) == json <==> !MatchesSomewhere(prefix + json + suffix)
  {
    if MatchesSomewhere(prefix + json + suffix) {
      MatchHasNoNewline(prefix + json + suffix);
    } else {
      FallbackIsWhole(prefix, json, suffix);
    }
  }

  const HIJACKED := "x = [\n\"a = [b]\"]"

  /** The `=` of the wrapper starts no match: the bracket after it ends its line. */
  lemma WrapperDoesNotMatch(i: nat, j: nat, k: nat)
    requires Matches(HIJACKED, i, j, k)
    ensures 9 <= i
  {
    var s := HIJACKED;
    assert |s| == 16 && s[0] == 'x' && s[1] == ' ' && s[2] == '=' && s[3] == ' ' && s[4] == '[' && s[5] == '\n';
    assert s[6] == '"' && s[7] == 'a' && s[8] == ' ';
    assert i < 9 ==> i == 2;
    assert !Space('[');
  }

  /** The case in point: a two-line archive whose one tweet says `a = [b]`. */
  lemma TweetTextHijacksExtraction()
    ensures ExtractJson(HIJACKED) == "[b]\"]"
  {
    var s := HIJACKED;
    assert |s| == 16 && s[9] == '=' && s[11] == '[' && s[15] == ']';
    assert Matches(s, 9, 11, 15);
    forall i, j, k | Matches(s, i, j, k) ensures 9 <= i {
      WrapperDoesNotMatch(i, j, k);
    }
    ExtractOfMatch(s, 9, 11, 15);
    assert s[11..16] == "[b]\"]";
  }

  /** `result` is the piece of `s` from a `[` to a later `]`. */
  ghost predicate IsPiece(s: string, result: string) {
    exists j, k :: 0 <= j < k < |s| && s[j] == '[' && s[k] == ']' && result == s[j..k + 1]
  }

  ghost predicate NoPiece(s: string) {
    forall j, k :: 0 <= j < k < |s| ==> !(s[j] == '[' && s[k] == ']')
  }

  lemma MatchIsPiece(s: string)
    requires FirstGroup(s, 0).Span?
    ensures ExtractJson(s) != "" && IsPiece(s, ExtractJson(s))
  {
    SearchFindsChosenMatch(s);
    var j, k := FirstGroup(s, 0).from, FirstGroup(s, 0).to;
    assert (exists i :: Chosen(s, i, j, k)) && ExtractJson(s) == s[j..k + 1];
  }

  lemma FallbackIsPiece(s: string)
    requires FirstGroup(s, 0).NoSpan?
    ensures if ExtractJson(s) == "" then NoPiece(s) else IsPiece(s, ExtractJson(s))
  {
    var start, end := FirstIndex(s, '['), LastIndex(s, ']');
    if ExtractJson(s) == "" {
      forall j, k | 0 <= j < k < |s| && s[j] == '[' ensures s[k] != ']' {
        assert 0 <= start <= j;
      }
    } else {
      assert ExtractJson(s) == s[start..end + 1];
    }
  }

  /** Whatever the file holds, a non-empty result is a piece of it that begins with `[` and ends with `]`;
      and the result is empty exactly when no `[` comes before a `]`. */
  lemma ResultIsBracketedPiece(s: string)
    ensures ExtractJson(s) != "" ==> IsPiece(s, ExtractJson(s))
    ensures ExtractJson(s) == "" <==> NoPiece(s)
  {
    if FirstGroup(s, 0).Span? {
      MatchIsPiece(s);
    } else {
      FallbackIsPiece(s);
    }
  }

  // ------------------------------------------------------------------ retweets

  /** Text of a tweet in the archive: `full_text`, or `text` where that is empty. */
  datatype RawTweet = RawTweet(id: string, fullText: string, text: string)
  datatype TweetRecord = TweetRecord(id: string, text: string)

  function TextOf(t: RawTweet): string {
    if t.fullText == "" then t.text else t.fullText
  }

  /** Unicode white space. */
  predicate Blank(c: char) {
    || '\t' <= c <= '\r' || c == ' '
    || c in {'\U{0085}', '\U{00A0}', '\U{1680}', '\U{2028}', '\U{2029}', '\U{202F}', '\U{205F}', '\U{3000}'}
    || '\U{2000}' <= c <= '\U{200A}'
  }

  function TrimLeft(s: string): string {
    if s != "" && Blank(s[0]) then TrimLeft(s[1..]) else s
  }

  /** The program trims both ends; since `RT @` does not end in white space the right end does not matter. */
  predicate IsRetweet(text: string) {
    "RT @" <= TrimLeft(text)
  }

  function Converted(t: RawTweet): TweetRecord {
    TweetRecord(t.id, TextOf(t))
  }

  /** The archive without its retweets, in order. */
  function Originals(raw: seq<RawTweet>): seq<TweetRecord> {
    if raw == [] then []
    else
      var before := Originals(raw[..|raw| - 1]);
      if IsRetweet(TextOf(raw[|raw| - 1])) then before else before + [Converted(raw[|raw| - 1])]
  }

  ghost predicate BlankThenRT(text: string, space: string, rest: string) {
    text == space + "RT @" + rest && forall c :: c in space ==> Blank(c)
  }

  /** White space, then `RT @`, then anything. */
  ghost predicate BeginsWithRT(text: string) {
    exists space, rest :: BlankThenRT(text, space, rest)
  }

  lemma {:induction false} TrimmedSplits(text: string) returns (space: string)
    ensures text == space + TrimLeft(text) && (forall c :: c in space ==> Blank(c))
  {
    if text != "" && Blank(text[0]) {
      space := TrimmedSplits(text[1..]);
      space := [text[0]] + space;
    } else {
      space := "";
    }
  }

  lemma {:induction false} BlanksTrimmed(space: string, rest: string)
    requires (forall c :: c in space ==> Blank(c)) && "RT @" <= rest
    ensures TrimLeft(space + rest) == rest
  {
    if space == "" {
      assert space + rest == rest;
    } else {
      assert (space + rest)[1..] == space[1..] + rest;
      BlanksTrimmed(space[1..], rest);
    }
  }

  lemma RetweetIff(text: string)
    ensures IsRetweet(text) <==> BeginsWithRT(text)
  {
    if IsRetweet(text) {
      var space := TrimmedSplits(text);
      assert BlankThenRT(text, space, TrimLeft(text)[4..]);
    }
    if space, rest :| BlankThenRT(text, space, rest) {
      assert text == space + ("RT @" + rest);
      BlanksTrimmed(space, "RT @" + rest);
    }
  }

  lemma {:induction false} OriginalsJoin(a: seq<RawTweet>, b: seq<RawTweet>)
    ensures Originals(a + b) == Originals(a) + Originals(b)
  {
    if b == [] {
      assert a + b == a;
    } else {
      OriginalsJoin(a, b[..|b| - 1]);
      assert (a + b)[..|a + b| - 1] == a + b[..|b| - 1];
    }
  }

  /** Wherever a tweet stands in the archive: it is left out exactly if its text is white space, then `RT @`, then
      anything, and else kept in its place, with its ID and its full text, or its text where that is empty. */
  lemma OriginalsExact(a: seq<RawTweet>, t: RawTweet, b: seq<RawTweet>)
    ensures var text := if t.fullText != "" then t.fullText else t.text;
            Originals(a + [t] + b)
            == Originals(a) + (if BeginsWithRT(text) then [] else [TweetRecord(t.id, text)]) + Originals(b)
  {
    RetweetIff(TextOf(t));
    OriginalsJoin(a + [t], b);
    OriginalsJoin(a, [t]);
    assert Originals([t][..0]) == [];
  }

  method ConvertTweets(raw: seq<RawTweet>) returns (tweets: seq<TweetRecord>, retweetCount: nat)
    ensures tweets == Originals(raw)
    ensures |tweets| + retweetCount == |raw|
    ensures forall t :: t in tweets ==> !IsRetweet(t.text)
  {
    tweets, retweetCount := [], 0;
    for i := 0 to |raw|
      invariant tweets == Originals(raw[..i])
      invariant |tweets| + retweetCount == i
      invariant forall t :: t in tweets ==> !IsRetweet(t.text)
    {
      assert raw[..i + 1][..i] == raw[..i];
      if IsRetweet(TextOf(raw[i])) {
        retweetCount := retweetCount + 1;
      } else {
        tweets := tweets + [Converted(raw[i])];
      }
    }
    assert raw[..|raw|] == raw;
  }
}
