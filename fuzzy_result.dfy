/**
 * `FuzzyMatchResult`: what one fuzzy lookup returns, with its read-only
 * accessors.
 */
module FuzzyResult {
  import opened Text

  /** The `match_type` strings the matcher writes: 'direct' and 'fuzzy'. */
  datatype MatchType = Direct | Fuzzy

  /** A suggested class name and its score. */
  type Match = (string, real)

  datatype FuzzyMatchResult = FuzzyMatchResult(
    original: string,
    matches: seq<Match>,
    category: Option<string>,
    normalizedForm: string,
    matchType: MatchType)

  /**
   * `FuzzyMatchResult(original=…, matches=…)` with every other field left
   * at its declared default.
   */
  function WithDefaults(original: string, matches: seq<Match>): (r: FuzzyMatchResult)
    ensures r.original == original && r.matches == matches
    ensures r.category == None && r.normalizedForm == "" && r.matchType == Fuzzy
  {
    FuzzyMatchResult(original, matches, None, "", Fuzzy)
  }

  /** `best_match`: the first match, or None when there is none. */
  function BestMatch(r: FuzzyMatchResult): (b: Option<Match>)
    ensures b.None? <==> r.matches == []
    ensures b.Some? ==> b.value == r.matches[0]
  {
    if r.matches == [] then None else Some(r.matches[0])
  }

  /** `has_high_confidence_match`: the first match scores at least 0.8. */
  predicate HasHighConfidenceMatch(r: FuzzyMatchResult) {
    r.matches != [] && r.matches[0].1 >= 0.8
  }

  /** `__bool__`: a result is truthy when it has a match. */
  predicate IsTruthy(r: FuzzyMatchResult) {
    r.matches != []
  }

  /** `__iter__`: iterating a result yields its matches, in order. */
  function Iter(r: FuzzyMatchResult): (items: seq<Match>)
    ensures |items| == |r.matches| && forall i :: 0 <= i < |items| ==> items[i] == r.matches[i]
  {
    r.matches
  }

  /**
   * The accessors agree: a result is truthy exactly when it has a best
   * match, which is the first item iterated, and it is high-confidence
   * exactly when that best match scores at least 0.8.
   */
  lemma AccessorsAgree(r: FuzzyMatchResult)
    ensures IsTruthy(r) <==> BestMatch(r).Some?
    ensures IsTruthy(r) ==> BestMatch(r).value == Iter(r)[0]
    ensures HasHighConfidenceMatch(r) <==> BestMatch(r).Some? && BestMatch(r).value.1 >= 0.8
    ensures HasHighConfidenceMatch(r) ==> IsTruthy(r)
  {
  }
}
