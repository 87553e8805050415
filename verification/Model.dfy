/** Values shared by the whole pipeline. */
module Model {

  datatype Option<+T> = None | Some(value: T)

  /** What a job asks the scorer to look for. */
  datatype Criteria = Criteria(
    forbiddenWords: seq<string>,
    professionalCheck: bool,
    tone: string,
    excludePolitics: bool,
    excludeProfanity: bool,
    excludeThreats: bool,
    excludeHateSpeech: bool,
    excludeHarassment: bool)

  const DEFAULT_CRITERIA := Criteria([], false, "respectful and thoughtful", false, true, true, true, true)

  /** Substring test. */
  predicate Contains(text: string, part: string) {
    exists i :: 0 <= i <= |text| && OccursAt(text, part, i)
  }

  predicate OccursAt(text: string, part: string, i: nat) {
    i + |part| <= |text| && text[i..i + |part|] == part
  }

  ghost predicate Wraps(text: string, before: string, part: string, after: string) {
    text == before + part + after
  }

  /** A text contains another exactly if it is that text with something before and something after it. */
  lemma ContainsIff(text: string, part: string)
    ensures Contains(text, part) <==> exists before, after :: Wraps(text, before, part, after)
  {
    if Contains(text, part) {
      var i :| 0 <= i <= |text| && OccursAt(text, part, i);
      assert Wraps(text, text[..i], part, text[i + |part|..]);
    }
    if before, after :| Wraps(text, before, part, after) {
      assert OccursAt(text, part, |before|);
    }
  }
}
