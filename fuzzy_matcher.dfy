/**
 * `FuzzyClassMatcher.find_similar_classes` and the three loops it runs:
 * the direct-match short-circuit, the cheap candidate filter and the
 * weighted scoring. Candidates are a sequence, which fixes the order in
 * which the source iterates its candidate set.
 */
module FuzzyMatching {
  import opened Text
  import opened FuzzyConfig
  import opened Tokenizer
  import opened NameNormalizer
  import opened CategoryDetection
  import opened MatcherState
  import opened SubstitutionScoring
  import opened FuzzyResult

  // ---------------------------------------------------------------------
  // Direct matches
  // ---------------------------------------------------------------------

  /**
   * The score a candidate gets as a direct match: 1.0 for the same
   * normalised form, 0.8 when the substitution score of the two normalised
   * forms exceeds 0.8, and none otherwise.
   */
  function DirectScore(m: Matcher, normalizedQuery: string, candidate: string): Option<real> {
    var normalizedCandidate := Normalize(candidate);
    if normalizedCandidate == normalizedQuery then Some(1.0)
    else if SubstitutionScore(m, normalizedQuery, normalizedCandidate) > 0.8 then Some(0.8)
    else None
  }

  /** A direct score is 1.0 exactly for the same normalised form, and 0.8 otherwise. */
  lemma DirectScoreValues(m: Matcher, normalizedQuery: string, candidate: string)
    ensures DirectScore(m, normalizedQuery, candidate).Some? ==>
              (DirectScore(m, normalizedQuery, candidate).value == 1.0 <==> Normalize(candidate) == normalizedQuery) &&
              (DirectScore(m, normalizedQuery, candidate).value != 1.0 ==> DirectScore(m, normalizedQuery, candidate).value == 0.8)
  {
  }

  /** The candidates `score` gives a score, each with that score, in candidate order. */
  function Selected(score: string -> Option<real>, candidates: seq<string>): seq<Match> {
    if candidates == [] then []
    else
      var front := Selected(score, candidates[..|candidates| - 1]);
      var candidate := candidates[|candidates| - 1];
      if score(candidate).Some? then front + [(candidate, score(candidate).value)] else front
  }

  /** Selecting over one more candidate. */
  lemma SelectedStep(score: string -> Option<real>, candidates: seq<string>, i: int)
    requires 0 <= i < |candidates|
    ensures score(candidates[i]).Some? ==>
              Selected(score, candidates[..i + 1]) == Selected(score, candidates[..i]) + [(candidates[i], score(candidates[i]).value)]
    ensures score(candidates[i]).None? ==> Selected(score, candidates[..i + 1]) == Selected(score, candidates[..i])
  {
    assert candidates[..i + 1][..i] == candidates[..i];
  }

  /** Every selected entry is a candidate with its score. */
  lemma {:induction false} SelectedSound(score: string -> Option<real>, candidates: seq<string>)
    ensures forall k :: 0 <= k < |Selected(score, candidates)| ==>
              Selected(score, candidates)[k].0 in candidates &&
              score(Selected(score, candidates)[k].0) == Some(Selected(score, candidates)[k].1)
  {
    if candidates != [] {
      var i := |candidates| - 1;
      var front := candidates[..i];
      SelectedSound(score, front);
      SelectedStep(score, candidates, i);
      assert candidates[..i + 1] == candidates;
      forall k | 0 <= k < |Selected(score, front)| ensures Selected(score, front)[k].0 in candidates {
        assert Selected(score, front)[k].0 in front;
      }
    }
  }

  /** Every candidate with a score is selected. */
  lemma {:induction false} SelectedComplete(score: string -> Option<real>, candidates: seq<string>, c: string)
    requires c in candidates && score(c).Some?
    ensures exists k :: 0 <= k < |Selected(score, candidates)| && Selected(score, candidates)[k].0 == c
  {
    var i := |candidates| - 1;
    var front := candidates[..i];
    SelectedStep(score, candidates, i);
    assert candidates[..i + 1] == candidates;
    var r := Selected(score, candidates);
    if c == candidates[i] {
      assert r[|r| - 1].0 == c;
    } else {
      assert c in front;
      SelectedComplete(score, front, c);
      var f := Selected(score, front);
      var k :| 0 <= k < |f| && f[k].0 == c;
      assert r[k] == f[k];
    }
  }

  /** `DirectScore` against one normalised query. */
  function DirectScorer(m: Matcher, normalizedQuery: string): string -> Option<real> {
    c => DirectScore(m, normalizedQuery, c)
  }

  /** The list `_find_direct_matches` builds, in candidate order. */
  function DirectMatchesOf(m: Matcher, normalizedQuery: string, candidates: seq<string>): seq<Match> {
    Selected(DirectScorer(m, normalizedQuery), candidates)
  }

  /** `_find_direct_matches`. */
  method FindDirectMatches(m: Matcher, normalizedQuery: string, candidates: seq<string>) returns (matches: seq<Match>)
    ensures matches == DirectMatchesOf(m, normalizedQuery, candidates)
  {
    matches := [];
    var i := 0;
    while i < |candidates|
      invariant 0 <= i <= |candidates|
      invariant matches == DirectMatchesOf(m, normalizedQuery, candidates[..i])
    {
      var candidate := candidates[i];
      var score := DirectScore(m, normalizedQuery, candidate);
      SelectedStep(DirectScorer(m, normalizedQuery), candidates, i);
      assert DirectScorer(m, normalizedQuery)(candidate) == score;
      if score.Some? {
        matches := matches + [(candidate, score.value)];
      }
      i := i + 1;
    }
    assert candidates[..|candidates|] == candidates;
  }

  /** Every direct match is a candidate with its direct score. */
  lemma DirectMatchesSound(m: Matcher, normalizedQuery: string, candidates: seq<string>)
    ensures forall k :: 0 <= k < |DirectMatchesOf(m, normalizedQuery, candidates)| ==>
              DirectMatchesOf(m, normalizedQuery, candidates)[k].0 in candidates &&
              DirectScore(m, normalizedQuery, DirectMatchesOf(m, normalizedQuery, candidates)[k].0) ==
                Some(DirectMatchesOf(m, normalizedQuery, candidates)[k].1)
  {
    SelectedSound(DirectScorer(m, normalizedQuery), candidates);
  }

  /** Every candidate with a direct score is among the direct matches. */
  lemma DirectMatchesComplete(m: Matcher, normalizedQuery: string, candidates: seq<string>, c: string)
    requires c in candidates && DirectScore(m, normalizedQuery, c).Some?
    ensures exists k :: 0 <= k < |DirectMatchesOf(m, normalizedQuery, candidates)| &&
                        DirectMatchesOf(m, normalizedQuery, candidates)[k].0 == c
  {
    var score := DirectScorer(m, normalizedQuery);
    assert score(c).Some?;
    SelectedComplete(score, candidates, c);
    var k :| 0 <= k < |Selected(score, candidates)| && Selected(score, candidates)[k].0 == c;
    assert DirectMatchesOf(m, normalizedQuery, candidates)[k].0 == c;
  }

  // ---------------------------------------------------------------------
  // Candidate filter
  // ---------------------------------------------------------------------

  /**
   * The tests `_filter_candidates` applies to one candidate: non-empty,
   * not the raw query, a compatible category when the query has one, and
   * a token in common with the query.
   */
  predicate Keep(m: Matcher, query: string, category: Option<string>, queryParts: set<string>, candidate: string) {
    if candidate == "" || candidate == query then false
    else if Truthy(category) && Truthy(DetectCategory(m.config, candidate))
            && DetectCategory(m.config, candidate) != category then false
    else queryParts * Tokens(candidate) != {}
  }

  /** The candidates `_filter_candidates` keeps, in candidate order. */
  function FilterOf(m: Matcher, query: string, category: Option<string>, queryParts: set<string>,
                    candidates: seq<string>): seq<string>
  {
    if candidates == [] then []
    else
      var front := FilterOf(m, query, category, queryParts, candidates[..|candidates| - 1]);
      var candidate := candidates[|candidates| - 1];
      if Keep(m, query, category, queryParts, candidate) then front + [candidate] else front
  }

  /** `_filter_candidates`. */
  method FilterCandidates(m: Matcher, query: string, category: Option<string>, queryParts: set<string>,
                          candidates: seq<string>) returns (filtered: seq<string>)
    ensures filtered == FilterOf(m, query, category, queryParts, candidates)
  {
    filtered := [];
    var i := 0;
    while i < |candidates|
      invariant 0 <= i <= |candidates|
      invariant filtered == FilterOf(m, query, category, queryParts, candidates[..i])
    {
      var candidate := candidates[i];
      assert candidates[..i + 1][..i] == candidates[..i];
      i := i + 1;
      if candidate == "" || candidate == query {
        continue;
      }
      if Truthy(category) {
        var candidateCategory := DetectCategory(m.config, candidate);
        if Truthy(candidateCategory) && candidateCategory != category {
          continue;
        }
      }
      var candidateParts := Tokens(candidate);
      if queryParts * candidateParts != {} {
        filtered := filtered + [candidate];
      }
    }
    assert candidates[..|candidates|] == candidates;
  }

  /**
   * A candidate survives the filter exactly when it is a non-empty
   * candidate other than the query, shares a token with the query, and,
   * when the query has a category, has no category or the same one.
   */
  lemma {:induction false} FilterExact(m: Matcher, query: string, category: Option<string>, queryParts: set<string>,
                                       candidates: seq<string>, c: string)
    ensures c in FilterOf(m, query, category, queryParts, candidates) <==>
            c in candidates && c != "" && c != query && queryParts * Tokens(c) != {} &&
            (Truthy(category) ==> !Truthy(DetectCategory(m.config, c)) || DetectCategory(m.config, c) == category)
  {
    if candidates != [] {
      var front := candidates[..|candidates| - 1];
      FilterExact(m, query, category, queryParts, front, c);
      assert candidates == front + [candidates[|candidates| - 1]];
    }
  }

  // ---------------------------------------------------------------------
  // Scoring
  // ---------------------------------------------------------------------

  predicate AllAbove(ms: seq<Match>, bound: real) {
    forall k :: 0 <= k < |ms| ==> ms[k].1 > bound
  }

  /** `_calculate_similarity` against one query, as a function of the candidate. */
  function Similarity(m: Matcher, ratio: (string, string) -> real, normalizedQuery: string, query: string): string -> real {
    c => SimilarityScore(m, ratio, normalizedQuery, query, c)
  }

  /**
   * The list `_score_candidates` holds when its loop ends: starting from
   * `acc`, each remaining candidate scoring at least `threshold` is
   * appended, and the loop stops early once `maxSuggestions` matches are
   * held that all score above 0.9.
   */
  function CollectFrom(score: string -> real, threshold: real, maxSuggestions: int,
                       acc: seq<Match>, rest: seq<string>): seq<Match>
    decreases |rest|
  {
    if rest == [] then acc
    else if score(rest[0]) >= threshold then
      var held := acc + [(rest[0], score(rest[0]))];
      if |held| >= maxSuggestions && AllAbove(held, 0.9) then held
      else CollectFrom(score, threshold, maxSuggestions, held, rest[1..])
    else CollectFrom(score, threshold, maxSuggestions, acc, rest[1..])
  }

  /** Collecting from one more remaining candidate. */
  lemma CollectStep(score: string -> real, threshold: real, maxSuggestions: int, acc: seq<Match>, rest: seq<string>)
    requires rest != []
    ensures score(rest[0]) < threshold ==>
              CollectFrom(score, threshold, maxSuggestions, acc, rest) ==
              CollectFrom(score, threshold, maxSuggestions, acc, rest[1..])
    ensures score(rest[0]) >= threshold ==>
              var held := acc + [(rest[0], score(rest[0]))];
              CollectFrom(score, threshold, maxSuggestions, acc, rest) ==
              if |held| >= maxSuggestions && AllAbove(held, 0.9) then held
              else CollectFrom(score, threshold, maxSuggestions, held, rest[1..])
  {
  }

  /** A collected match: a candidate of `pool` with its score, at least the threshold. */
  predicate ScoredFrom(score: string -> real, threshold: real, e: Match, pool: seq<string>) {
    e.0 in pool && e.1 == score(e.0) && e.1 >= threshold
  }

  /** Collecting only appends to `acc`, and only candidates of `rest` with their score. */
  lemma {:induction false} CollectFromSound(score: string -> real, threshold: real, maxSuggestions: int,
                                            acc: seq<Match>, rest: seq<string>)
    ensures acc <= CollectFrom(score, threshold, maxSuggestions, acc, rest)
    ensures forall k :: |acc| <= k < |CollectFrom(score, threshold, maxSuggestions, acc, rest)| ==>
              ScoredFrom(score, threshold, CollectFrom(score, threshold, maxSuggestions, acc, rest)[k], rest)
    decreases |rest|
  {
    if rest != [] {
      var c := rest[0];
      var r := CollectFrom(score, threshold, maxSuggestions, acc, rest);
      var next := if score(c) >= threshold then acc + [(c, score(c))] else acc;
      if score(c) >= threshold && |next| >= maxSuggestions && AllAbove(next, 0.9) {
        assert r == next;
        assert ScoredFrom(score, threshold, r[|acc|], rest);
      } else {
        assert r == CollectFrom(score, threshold, maxSuggestions, next, rest[1..]);
        CollectFromSound(score, threshold, maxSuggestions, next, rest[1..]);
        forall k | |acc| <= k < |r| ensures ScoredFrom(score, threshold, r[k], rest) {
          if k < |next| {
            assert r[k] == next[k];
          } else {
            assert ScoredFrom(score, threshold, r[k], rest[1..]);
            assert r[k].0 in rest[1..];
          }
        }
      }
    }
  }

  /**
   * Collecting misses nothing but what the early exit skips: a remaining
   * candidate scoring at least the threshold is collected with its score,
   * unless the loop stopped first holding `maxSuggestions` matches that all
   * score above 0.9.
   */
  lemma {:induction false} CollectFromComplete(score: string -> real, threshold: real, maxSuggestions: int,
                                               acc: seq<Match>, rest: seq<string>, c: string)
    requires c in rest && score(c) >= threshold
    ensures (c, score(c)) in CollectFrom(score, threshold, maxSuggestions, acc, rest) ||
            (|CollectFrom(score, threshold, maxSuggestions, acc, rest)| >= maxSuggestions &&
             AllAbove(CollectFrom(score, threshold, maxSuggestions, acc, rest), 0.9))
    decreases |rest|
  {
    var r := CollectFrom(score, threshold, maxSuggestions, acc, rest);
    var next := if score(rest[0]) >= threshold then acc + [(rest[0], score(rest[0]))] else acc;
    if score(rest[0]) >= threshold && |next| >= maxSuggestions && AllAbove(next, 0.9) {
      assert r == next;
    } else {
      assert r == CollectFrom(score, threshold, maxSuggestions, next, rest[1..]);
      if rest[0] == c {
        CollectFromSound(score, threshold, maxSuggestions, next, rest[1..]);
        assert r[|next| - 1] == next[|next| - 1] == (c, score(c));
      } else {
        CollectFromComplete(score, threshold, maxSuggestions, next, rest[1..], c);
      }
    }
  }

  predicate Descending(ms: seq<Match>) {
    forall i, j :: 0 <= i < j < |ms| ==> ms[i].1 >= ms[j].1
  }

  /** An element scoring at least the head of a descending list can go in front of it. */
  lemma DescendingCons(h: Match, t: seq<Match>)
    requires Descending(t) && (t == [] || h.1 >= t[0].1)
    ensures Descending([h] + t)
  {
    var r := [h] + t;
    forall i, j | 0 <= i < j < |r| ensures r[i].1 >= r[j].1 {
      if i == 0 {
        assert r[j] == t[j - 1];
        assert t[0].1 >= t[j - 1].1 || j == 1;
      } else {
        assert r[i] == t[i - 1] && r[j] == t[j - 1];
      }
    }
  }

  /** Places `x` before the first element scoring no more than it. */
  function InsertDesc(x: Match, ms: seq<Match>): (r: seq<Match>)
    requires Descending(ms)
    ensures Descending(r)
    ensures multiset(r) == multiset(ms) + multiset{x}
    ensures r[0] == x || (ms != [] && r[0] == ms[0])
  {
    if ms == [] || ms[0].1 <= x.1 then
      DescendingCons(x, ms);
      [x] + ms
    else
      var rest := InsertDesc(x, ms[1..]);
      assert ms == [ms[0]] + ms[1..];
      assert |ms| >= 2 ==> ms[0].1 >= ms[1].1;
      DescendingCons(ms[0], rest);
      [ms[0]] + rest
  }

  /**
   * `sorted(matches, key=score, reverse=True)`: a permutation of `ms` with
   * non-increasing scores, in which equal scores keep their order
   * (`SortDescStable`).
   */
  function SortDesc(ms: seq<Match>): (r: seq<Match>)
    ensures Descending(r)
    ensures multiset(r) == multiset(ms)
  {
    if ms == [] then []
    else
      assert ms == [ms[0]] + ms[1..];
      InsertDesc(ms[0], SortDesc(ms[1..]))
  }

  /** The elements of `ms` that score exactly `v`, in their order in `ms`. */
  function WithScore(ms: seq<Match>, v: real): seq<Match> {
    if ms == [] then [] else (if ms[0].1 == v then [ms[0]] else []) + WithScore(ms[1..], v)
  }

  /** The tail of a descending list is descending. */
  lemma DescendingTail(ms: seq<Match>)
    requires ms != [] && Descending(ms)
    ensures Descending(ms[1..])
  {
    forall i, j | 0 <= i < j < |ms| - 1 ensures ms[1..][i].1 >= ms[1..][j].1 {
      assert ms[1..][i] == ms[i + 1] && ms[1..][j] == ms[j + 1];
    }
  }

  /** Selecting by score distributes over putting one element in front. */
  lemma WithScoreCons(h: Match, t: seq<Match>, v: real)
    ensures WithScore([h] + t, v) == (if h.1 == v then [h] else []) + WithScore(t, v)
  {
    assert ([h] + t)[1..] == t;
  }

  /** One step of `InsertDesc`. */
  lemma InsertDescUnfold(x: Match, ms: seq<Match>)
    requires ms != [] && Descending(ms) && ms[0].1 > x.1
    ensures Descending(ms[1..])
    ensures InsertDesc(x, ms) == [ms[0]] + InsertDesc(x, ms[1..])
  {
    DescendingTail(ms);
  }

  /** Stability of an insertion at the front. */
  lemma InsertDescStableFront(x: Match, ms: seq<Match>, v: real)
    requires Descending(ms) && (ms == [] || ms[0].1 <= x.1)
    ensures WithScore(InsertDesc(x, ms), v) == (if x.1 == v then [x] else []) + WithScore(ms, v)
  {
    assert InsertDesc(x, ms) == [x] + ms;
    WithScoreCons(x, ms, v);
  }

  /** Stability of an insertion behind the head `h`, given stability for the tail `t`. */
  lemma InsertDescStableBehind(x: Match, ms: seq<Match>, v: real, h: Match, t: seq<Match>, rest: seq<Match>)
    requires ms == [h] + t && Descending(ms) && h.1 > x.1
    requires InsertDesc(x, ms) == [h] + rest
    requires WithScore(rest, v) == (if x.1 == v then [x] else []) + WithScore(t, v)
    ensures WithScore(InsertDesc(x, ms), v) == (if x.1 == v then [x] else []) + WithScore(ms, v)
  {
    WithScoreCons(h, rest, v);
    WithScoreCons(h, t, v);
  }

  /** Inserting `x` puts it in front of every element of its own score. */
  lemma {:induction false} InsertDescStable(x: Match, ms: seq<Match>, v: real)
    requires Descending(ms)
    ensures WithScore(InsertDesc(x, ms), v) == (if x.1 == v then [x] else []) + WithScore(ms, v)
  {
    if ms == [] || ms[0].1 <= x.1 {
      InsertDescStableFront(x, ms, v);
    } else {
      InsertDescUnfold(x, ms);
      InsertDescStable(x, ms[1..], v);
      assert ms == [ms[0]] + ms[1..];
      InsertDescStableBehind(x, ms, v, ms[0], ms[1..], InsertDesc(x, ms[1..]));
    }
  }

  /**
   * The sort is stable: for every score, the matches with that score come
   * out in the order they went in, which decides the tied candidate that
   * survives the cut to `max_suggestions`.
   */
  lemma {:induction false} SortDescStable(ms: seq<Match>, v: real)
    ensures WithScore(SortDesc(ms), v) == WithScore(ms, v)
  {
    if ms != [] {
      SortDescStable(ms[1..], v);
      InsertDescStable(ms[0], SortDesc(ms[1..]), v);
    }
  }

  /** The matches `_score_candidates` holds when its loop ends, before sorting. */
  function CollectedOf(m: Matcher, ratio: (string, string) -> real, normalizedQuery: string, query: string,
                       candidates: seq<string>): seq<Match>
  {
    CollectFrom(Similarity(m, ratio, normalizedQuery, query), m.config.similarityThreshold,
                m.config.maxSuggestions, [], candidates)
  }

  /** What `_score_candidates` returns. */
  function ScoredOf(m: Matcher, ratio: (string, string) -> real, normalizedQuery: string, query: string,
                    candidates: seq<string>): seq<Match>
  {
    PyPrefix(SortDesc(CollectedOf(m, ratio, normalizedQuery, query, candidates)), m.config.maxSuggestions)
  }

  /** `_score_candidates`. */
  method ScoreCandidates(m: Matcher, ratio: (string, string) -> real, normalizedQuery: string, query: string,
                         candidates: seq<string>) returns (scored: seq<Match>)
    ensures scored == ScoredOf(m, ratio, normalizedQuery, query, candidates)
  {
    var similarity := Similarity(m, ratio, normalizedQuery, query);
    var threshold, maxSuggestions := m.config.similarityThreshold, m.config.maxSuggestions;
    var matches: seq<Match> := [];
    var i := 0;
    while i < |candidates|
      invariant 0 <= i <= |candidates|
      invariant CollectFrom(similarity, threshold, maxSuggestions, matches, candidates[i..]) ==
                CollectFrom(similarity, threshold, maxSuggestions, [], candidates)
    {
      var candidate := candidates[i];
      var score := similarity(candidate);
      CollectStep(similarity, threshold, maxSuggestions, matches, candidates[i..]);
      assert candidates[i..][0] == candidate && candidates[i..][1..] == candidates[i + 1..];
      if score >= threshold {
        matches := matches + [(candidate, score)];
        if |matches| >= maxSuggestions && AllAbove(matches, 0.9) {
          break;
        }
      }
      i := i + 1;
    }
    scored := PyPrefix(SortDesc(matches), maxSuggestions);
  }

  /**
   * Scored matches are sorted by non-increasing score, number at most
   * `config.max_suggestions`, and each is a candidate with its similarity
   * score, at least the threshold.
   */
  lemma ScoredProperties(m: Matcher, ratio: (string, string) -> real, normalizedQuery: string, query: string,
                         candidates: seq<string>)
    ensures Descending(ScoredOf(m, ratio, normalizedQuery, query, candidates))
    ensures m.config.maxSuggestions >= 0 ==> |ScoredOf(m, ratio, normalizedQuery, query, candidates)| <= m.config.maxSuggestions
    ensures forall k :: 0 <= k < |ScoredOf(m, ratio, normalizedQuery, query, candidates)| ==>
              ScoredFrom(Similarity(m, ratio, normalizedQuery, query), m.config.similarityThreshold,
                         ScoredOf(m, ratio, normalizedQuery, query, candidates)[k], candidates)
  {
    var similarity := Similarity(m, ratio, normalizedQuery, query);
    var threshold, maxSuggestions := m.config.similarityThreshold, m.config.maxSuggestions;
    var collected := CollectFrom(similarity, threshold, maxSuggestions, [], candidates);
    CollectFromSound(similarity, threshold, maxSuggestions, [], candidates);
    var sorted := SortDesc(collected);
    var r := ScoredOf(m, ratio, normalizedQuery, query, candidates);
    forall k | 0 <= k < |r| ensures ScoredFrom(similarity, threshold, r[k], candidates) {
      assert r[k] == sorted[k];
      assert sorted[k] in multiset(collected);
      var j :| 0 <= j < |collected| && collected[j] == sorted[k];
    }
  }

  /** A match of `s` that a prefix of `s` leaves out sits behind that prefix. */
  lemma LeftOutOfPrefix(e: Match, s: seq<Match>, k: int) returns (j: int)
    requires e in s && e !in PyPrefix(s, k)
    ensures |PyPrefix(s, k)| <= j < |s| && s[j] == e
  {
    var p := PyPrefix(s, k);
    assert forall i :: 0 <= i < |p| ==> p[i] == s[i];
    j :| 0 <= j < |s| && s[j] == e;
  }

  /** The scored list holds exactly `min(config.max_suggestions, len(collected))` matches. */
  lemma ScoredLength(m: Matcher, ratio: (string, string) -> real, normalizedQuery: string, query: string,
                     candidates: seq<string>)
    ensures m.config.maxSuggestions >= 0 ==>
              |ScoredOf(m, ratio, normalizedQuery, query, candidates)| ==
              if m.config.maxSuggestions < |CollectedOf(m, ratio, normalizedQuery, query, candidates)|
              then m.config.maxSuggestions else |CollectedOf(m, ratio, normalizedQuery, query, candidates)|
  {
    var collected := CollectedOf(m, ratio, normalizedQuery, query, candidates);
    assert |SortDesc(collected)| == |multiset(SortDesc(collected))| == |multiset(collected)| == |collected|;
  }

  /** The cut keeps the best: a collected match it leaves out scores no more than any kept one. */
  lemma ScoredKeepsBest(m: Matcher, ratio: (string, string) -> real, normalizedQuery: string, query: string,
                        candidates: seq<string>)
    ensures forall e, k :: e in CollectedOf(m, ratio, normalizedQuery, query, candidates) &&
                           e !in ScoredOf(m, ratio, normalizedQuery, query, candidates) &&
                           0 <= k < |ScoredOf(m, ratio, normalizedQuery, query, candidates)| ==>
              e.1 <= ScoredOf(m, ratio, normalizedQuery, query, candidates)[k].1
  {
    var collected := CollectedOf(m, ratio, normalizedQuery, query, candidates);
    var sorted := SortDesc(collected);
    var scored := ScoredOf(m, ratio, normalizedQuery, query, candidates);
    forall e, k | e in collected && e !in scored && 0 <= k < |scored| ensures e.1 <= scored[k].1 {
      assert e in multiset(sorted);
      var j := LeftOutOfPrefix(e, sorted, m.config.maxSuggestions);
      assert scored[k] == sorted[k];
    }
  }

  /**
   * A candidate whose similarity reaches the threshold is kept, with its
   * score, unless the scored list is already full.
   */
  lemma ScoredKeepsReached(m: Matcher, ratio: (string, string) -> real, normalizedQuery: string, query: string,
                           candidates: seq<string>, c: string)
    requires c in candidates
    requires SimilarityScore(m, ratio, normalizedQuery, query, c) >= m.config.similarityThreshold
    requires m.config.maxSuggestions >= 0
    ensures (c, SimilarityScore(m, ratio, normalizedQuery, query, c)) in ScoredOf(m, ratio, normalizedQuery, query, candidates) ||
            |ScoredOf(m, ratio, normalizedQuery, query, candidates)| == m.config.maxSuggestions
  {
    var similarity := Similarity(m, ratio, normalizedQuery, query);
    var e := (c, SimilarityScore(m, ratio, normalizedQuery, query, c));
    assert similarity(c) == e.1;
    CollectFromComplete(similarity, m.config.similarityThreshold, m.config.maxSuggestions, [], candidates, c);
    var collected := CollectedOf(m, ratio, normalizedQuery, query, candidates);
    var sorted := SortDesc(collected);
    ScoredLength(m, ratio, normalizedQuery, query, candidates);
    if e in collected && e !in ScoredOf(m, ratio, normalizedQuery, query, candidates) {
      assert e in multiset(sorted);
      var j := LeftOutOfPrefix(e, sorted, m.config.maxSuggestions);
    }
  }

  // ---------------------------------------------------------------------
  // find_similar_classes
  // ---------------------------------------------------------------------

  /** What `find_similar_classes(query, candidates, max_suggestions)` returns. */
  function FindSimilarSpec(m: Matcher, ratio: (string, string) -> real, query: string, candidates: seq<string>,
                           maxSuggestions: int): FuzzyMatchResult
  {
    var normalizedQuery := Normalize(query);
    var category := DetectCategory(m.config, query);
    var direct := DirectMatchesOf(m, normalizedQuery, candidates);
    if direct != [] then
      FuzzyMatchResult(query, PyPrefix(direct, maxSuggestions), category, normalizedQuery, Direct)
    else
      var filtered := FilterOf(m, query, category, Tokens(query), candidates);
      var scored := ScoredOf(m, ratio, normalizedQuery, query, filtered);
      FuzzyMatchResult(query, PyPrefix(scored, maxSuggestions), category, normalizedQuery, Fuzzy)
  }

  /** `find_similar_classes`. */
  method FindSimilarClasses(m: Matcher, ratio: (string, string) -> real, query: string, candidates: seq<string>,
                            maxSuggestions: int) returns (result: FuzzyMatchResult)
    ensures result == FindSimilarSpec(m, ratio, query, candidates, maxSuggestions)
  {
    var normalizedQuery := Normalize(query);
    var queryParts := Tokens(query);
    var category := DetectCategory(m.config, query);
    var direct := FindDirectMatches(m, normalizedQuery, candidates);
    if direct != [] {
      return FuzzyMatchResult(query, PyPrefix(direct, maxSuggestions), category, normalizedQuery, Direct);
    }
    var filtered := FilterCandidates(m, query, category, queryParts, candidates);
    var scored := ScoreCandidates(m, ratio, normalizedQuery, query, filtered);
    result := FuzzyMatchResult(query, PyPrefix(scored, maxSuggestions), category, normalizedQuery, Fuzzy);
  }

  /**
   * Every result records the query, its normalised form and its category,
   * and it is a direct result exactly when some candidate qualifies as a
   * direct match.
   */
  lemma FindSimilarRecords(m: Matcher, ratio: (string, string) -> real, query: string, candidates: seq<string>,
                           maxSuggestions: int)
    ensures FindSimilarSpec(m, ratio, query, candidates, maxSuggestions).original == query
    ensures FindSimilarSpec(m, ratio, query, candidates, maxSuggestions).normalizedForm == Normalize(query)
    ensures FindSimilarSpec(m, ratio, query, candidates, maxSuggestions).category == DetectCategory(m.config, query)
    ensures FindSimilarSpec(m, ratio, query, candidates, maxSuggestions).matchType == Direct <==>
            exists c :: c in candidates && DirectScore(m, Normalize(query), c).Some?
  {
    var nq := Normalize(query);
    var direct := DirectMatchesOf(m, nq, candidates);
    if direct != [] {
      DirectMatchesSound(m, nq, candidates);
      assert direct[0].0 in candidates && DirectScore(m, nq, direct[0].0).Some?;
    } else {
      forall c | c in candidates ensures DirectScore(m, nq, c).None? {
        if DirectScore(m, nq, c).Some? {
          DirectMatchesComplete(m, nq, candidates, c);
        }
      }
    }
  }

  /**
   * A direct result holds at most `max_suggestions` direct matches, each a
   * candidate scored 1.0 for the same normalised form and 0.8 otherwise.
   */
  lemma FindSimilarDirect(m: Matcher, ratio: (string, string) -> real, query: string, candidates: seq<string>,
                          maxSuggestions: int)
    requires FindSimilarSpec(m, ratio, query, candidates, maxSuggestions).matchType == Direct
    ensures maxSuggestions >= 0 ==> |FindSimilarSpec(m, ratio, query, candidates, maxSuggestions).matches| <= maxSuggestions
    ensures forall k :: 0 <= k < |FindSimilarSpec(m, ratio, query, candidates, maxSuggestions).matches| ==>
              var e := FindSimilarSpec(m, ratio, query, candidates, maxSuggestions).matches[k];
              e.0 in candidates &&
              (e.1 == 1.0 <==> Normalize(e.0) == Normalize(query)) &&
              (e.1 != 1.0 ==> e.1 == 0.8)
  {
    var nq := Normalize(query);
    var direct := DirectMatchesOf(m, nq, candidates);
    var r := FindSimilarSpec(m, ratio, query, candidates, maxSuggestions);
    assert direct != [] && r.matches == PyPrefix(direct, maxSuggestions);
    DirectMatchesSound(m, nq, candidates);
    forall k | 0 <= k < |r.matches|
      ensures r.matches[k].0 in candidates
      ensures r.matches[k].1 == 1.0 <==> Normalize(r.matches[k].0) == nq
      ensures r.matches[k].1 != 1.0 ==> r.matches[k].1 == 0.8
    {
      assert r.matches[k] == direct[k];
      DirectScoreValues(m, nq, direct[k].0);
    }
  }

  /**
   * A fuzzy result holds at most `min(config.max_suggestions,
   * max_suggestions)` matches, with non-increasing scores.
   */
  lemma FindSimilarFuzzyOrder(m: Matcher, ratio: (string, string) -> real, query: string, candidates: seq<string>,
                              maxSuggestions: int)
    requires FindSimilarSpec(m, ratio, query, candidates, maxSuggestions).matchType == Fuzzy
    ensures Descending(FindSimilarSpec(m, ratio, query, candidates, maxSuggestions).matches)
    ensures maxSuggestions >= 0 ==> |FindSimilarSpec(m, ratio, query, candidates, maxSuggestions).matches| <= maxSuggestions
    ensures m.config.maxSuggestions >= 0 ==>
              |FindSimilarSpec(m, ratio, query, candidates, maxSuggestions).matches| <= m.config.maxSuggestions
  {
    var nq := Normalize(query);
    var filtered := FilterOf(m, query, DetectCategory(m.config, query), Tokens(query), candidates);
    ScoredProperties(m, ratio, nq, query, filtered);
    var scored := ScoredOf(m, ratio, nq, query, filtered);
    var r := FindSimilarSpec(m, ratio, query, candidates, maxSuggestions);
    forall i, j | 0 <= i < j < |r.matches| ensures r.matches[i].1 >= r.matches[j].1 {
      assert r.matches[i] == scored[i] && r.matches[j] == scored[j];
    }
  }

  /**
   * Each match of a fuzzy result is a candidate that passed the filter,
   * scored by the weighted similarity, at least the threshold.
   */
  lemma FindSimilarFuzzy(m: Matcher, ratio: (string, string) -> real, query: string, candidates: seq<string>,
                         maxSuggestions: int)
    requires FindSimilarSpec(m, ratio, query, candidates, maxSuggestions).matchType == Fuzzy
    ensures forall k :: 0 <= k < |FindSimilarSpec(m, ratio, query, candidates, maxSuggestions).matches| ==>
              var e := FindSimilarSpec(m, ratio, query, candidates, maxSuggestions).matches[k];
              Keep(m, query, DetectCategory(m.config, query), Tokens(query), e.0) && e.0 in candidates &&
              e.1 == SimilarityScore(m, ratio, Normalize(query), query, e.0) &&
              e.1 >= m.config.similarityThreshold
  {
    var nq := Normalize(query);
    var category := DetectCategory(m.config, query);
    var filtered := FilterOf(m, query, category, Tokens(query), candidates);
    var scored := ScoredOf(m, ratio, nq, query, filtered);
    ScoredProperties(m, ratio, nq, query, filtered);
    var r := FindSimilarSpec(m, ratio, query, candidates, maxSuggestions);
    forall k | 0 <= k < |r.matches|
      ensures Keep(m, query, category, Tokens(query), r.matches[k].0) && r.matches[k].0 in candidates
      ensures r.matches[k].1 == SimilarityScore(m, ratio, nq, query, r.matches[k].0)
      ensures r.matches[k].1 >= m.config.similarityThreshold
    {
      assert r.matches[k] == scored[k];
      assert Similarity(m, ratio, nq, query)(scored[k].0) == SimilarityScore(m, ratio, nq, query, scored[k].0);
      FilterExact(m, query, category, Tokens(query), candidates, scored[k].0);
    }
  }

  /**
   * Similar names are found: when some candidate passes the filter and its
   * similarity reaches the threshold, and both suggestion limits are
   * positive, the result has a match, whether it is direct or fuzzy.
   */
  lemma SimilarCandidateIsFound(m: Matcher, ratio: (string, string) -> real, query: string, candidates: seq<string>,
                                maxSuggestions: int, c: string)
    requires c in candidates && Keep(m, query, DetectCategory(m.config, query), Tokens(query), c)
    requires SimilarityScore(m, ratio, Normalize(query), query, c) >= m.config.similarityThreshold
    requires maxSuggestions > 0 && m.config.maxSuggestions > 0
    ensures IsTruthy(FindSimilarSpec(m, ratio, query, candidates, maxSuggestions))
  {
    var nq := Normalize(query);
    var category := DetectCategory(m.config, query);
    if DirectMatchesOf(m, nq, candidates) == [] {
      var filtered := FilterOf(m, query, category, Tokens(query), candidates);
      FilterExact(m, query, category, Tokens(query), candidates, c);
      ScoredKeepsReached(m, ratio, nq, query, filtered, c);
      assert ScoredOf(m, ratio, nq, query, filtered) != [];
    }
  }

  /**
   * A query that is itself a candidate always gets a direct result, and a
   * non-empty one when `max_suggestions` is positive.
   */
  lemma ExactCandidateIsDirect(m: Matcher, ratio: (string, string) -> real, query: string, candidates: seq<string>,
                               maxSuggestions: int)
    requires query in candidates
    ensures FindSimilarSpec(m, ratio, query, candidates, maxSuggestions).matchType == Direct
    ensures maxSuggestions > 0 ==> IsTruthy(FindSimilarSpec(m, ratio, query, candidates, maxSuggestions))
  {
    var nq := Normalize(query);
    assert DirectScore(m, nq, query) == Some(1.0);
    DirectMatchesComplete(m, nq, candidates, query);
  }

  /** The best match of a fuzzy result scores at least as high as every other match. */
  lemma FuzzyBestMatchIsTop(m: Matcher, ratio: (string, string) -> real, query: string, candidates: seq<string>,
                            maxSuggestions: int)
    requires FindSimilarSpec(m, ratio, query, candidates, maxSuggestions).matchType == Fuzzy
    requires IsTruthy(FindSimilarSpec(m, ratio, query, candidates, maxSuggestions))
    ensures forall k :: 0 <= k < |FindSimilarSpec(m, ratio, query, candidates, maxSuggestions).matches| ==>
              FindSimilarSpec(m, ratio, query, candidates, maxSuggestions).matches[k].1 <=
              BestMatch(FindSimilarSpec(m, ratio, query, candidates, maxSuggestions)).value.1
  {
    var r := FindSimilarSpec(m, ratio, query, candidates, maxSuggestions);
    FindSimilarFuzzyOrder(m, ratio, query, candidates, maxSuggestions);
    forall k | 0 <= k < |r.matches| ensures r.matches[k].1 <= BestMatch(r).value.1 {
      if k > 0 {
        assert r.matches[0].1 >= r.matches[k].1;
      }
    }
  }
}
