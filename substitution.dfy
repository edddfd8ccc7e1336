/**
 * The matcher's immutable state: its configuration, the reverse
 * substitution index built from the configuration's forward table, and the
 * worker count of its thread pool.
 */
module MatcherState {
  import opened Text
  import opened FuzzyConfig

  /**
   * `_build_reverse_substitutions`: every alias maps to its canonical
   * word; when an alias is listed under several canonical words, the one
   * processed last wins.
   */
  ghost function ReverseOf(t: Table): map<string, string> {
    if t == [] then map[]
    else
      var last := t[|t| - 1];
      ReverseOf(t[..|t| - 1]) + map a | a in last.1 :: last.0
  }

  /**
   * An alias is indexed exactly when some canonical word lists it, and it
   * maps to the last canonical word that does.
   */
  lemma {:induction false} ReverseLastWriteWins(t: Table, a: string)
    ensures a in ReverseOf(t) <==> exists i :: 0 <= i < |t| && a in t[i].1
    ensures forall i :: 0 <= i < |t| && a in t[i].1 && (forall j :: i < j < |t| ==> a !in t[j].1) ==>
                        ReverseOf(t)[a] == t[i].0
  {
    if t != [] {
      var front := t[..|t| - 1];
      ReverseLastWriteWins(front, a);
      assert forall i :: 0 <= i < |front| ==> front[i] == t[i];
      if a !in t[|t| - 1].1 {
        assert a in ReverseOf(t) <==> a in ReverseOf(front);
      }
    }
  }

  /** With no alias listed twice, the reverse index sends each alias to its own canonical word. */
  lemma ReverseUnambiguous(t: Table, i: int, a: string)
    requires ValuesDisjoint(t)
    requires 0 <= i < |t| && a in t[i].1
    ensures a in ReverseOf(t) && ReverseOf(t)[a] == t[i].0
  {
    ReverseLastWriteWins(t, a);
    assert forall j :: i < j < |t| ==> a !in t[j].1;
  }

  /** Indexing one more alias of `word`. */
  lemma IndexAliasNext(reverse: map<string, string>, base: map<string, string>, done: set<string>,
                       word: string, alias: string)
    requires reverse == base + map a | a in done :: word
    ensures reverse[alias := word] == base + map a | a in done + {alias} :: word
  {
  }

  /** The reverse index of one more canonical word. */
  lemma ReverseOfNext(t: Table, i: int)
    requires 0 <= i < |t|
    ensures ReverseOf(t[..i + 1]) == ReverseOf(t[..i]) + map a | a in t[i].1 :: t[i].0
  {
    assert t[..i + 1][..i] == t[..i];
  }

  /** `_build_reverse_substitutions`, with its two nested loops. */
  method BuildReverseSubstitutions(t: Table) returns (reverse: map<string, string>)
    ensures reverse == ReverseOf(t)
  {
    reverse := map[];
    var i := 0;
    while i < |t|
      invariant 0 <= i <= |t|
      invariant reverse == ReverseOf(t[..i])
    {
      var baseWord := t[i].0;
      var substitutes := t[i].1;
      ghost var before := reverse;
      var pending := substitutes;
      while pending != {}
        invariant pending <= substitutes
        invariant reverse == before + map a | a in substitutes - pending :: baseWord
        decreases |pending|
      {
        var sub :| sub in pending;
        IndexAliasNext(reverse, before, substitutes - pending, baseWord, sub);
        assert (substitutes - pending) + {sub} == substitutes - (pending - {sub});
        reverse := reverse[sub := baseWord];
        pending := pending - {sub};
      }
      assert substitutes - pending == substitutes;
      ReverseOfNext(t, i);
      i := i + 1;
    }
    assert t[..|t|] == t;
  }

  datatype Matcher = Matcher(config: Config, reverse: map<string, string>, maxWorkers: int)

  /**
   * The state `FuzzyClassMatcher.__init__` builds: the reverse index of the
   * configuration's table, and `min(32, cpu_count + 4)` workers.
   */
  ghost predicate Valid(m: Matcher) {
    m.reverse == ReverseOf(m.config.wordSubstitutions) && 1 <= m.maxWorkers <= 32
  }

  /**
   * `FuzzyClassMatcher(config)`. A missing configuration falls back to the
   * defaults; `os.cpu_count()` is a parameter, and an unknown or zero count
   * counts as one processor (`os.cpu_count() or 1`).
   */
  method NewMatcher(config: Option<Config>, cpuCount: Option<nat>) returns (m: Matcher)
    ensures Valid(m)
    ensures m.config == if config.Some? then config.value else Default()
    ensures cpuCount.None? || cpuCount.value == 0 ==> m.maxWorkers == 5
    ensures cpuCount.Some? && cpuCount.value > 0 ==>
              m.maxWorkers == if cpuCount.value + 4 < 32 then cpuCount.value + 4 else 32
  {
    var cfg := if config.Some? then config.value else Default();
    var reverse := BuildReverseSubstitutions(cfg.wordSubstitutions);
    var cpus := if cpuCount.Some? && cpuCount.value > 0 then cpuCount.value else 1;
    var workers := if cpus + 4 < 32 then cpus + 4 else 32;
    m := Matcher(cfg, reverse, workers);
  }
}

/**
 * `_calculate_substitution_score` and `_calculate_similarity_score`.
 */
module SubstitutionScoring {
  import opened Text
  import opened FuzzyConfig
  import opened Tokenizer
  import opened NameNormalizer
  import opened MatcherState

  /**
   * What one token of the original contributes: 1.0 when the candidate
   * has it, 0.8 when the candidate has one of its aliases or its canonical
   * word, 0.0 otherwise.
   */
  function Contribution(m: Matcher, part: string, candidateParts: set<string>): (r: real)
    ensures r == 1.0 || r == 0.8 || r == 0.0
    ensures r == 1.0 <==> part in candidateParts
  {
    if part in candidateParts then 1.0
    else if Get(m.config.wordSubstitutions, part) * candidateParts != {}
         || (part in m.reverse && m.reverse[part] in candidateParts) then 0.8
    else 0.0
  }

  /** The sum of the contributions of `parts`, left to right. */
  function SumContributions(m: Matcher, parts: seq<string>, candidateParts: set<string>): (r: real)
    ensures 0.0 <= r <= |parts| as real
  {
    if parts == [] then 0.0
    else SumContributions(m, parts[..|parts| - 1], candidateParts) + Contribution(m, parts[|parts| - 1], candidateParts)
  }

  /** The tokens of `original`, each once, in order of first appearance. */
  function DistinctTokens(original: string): (r: seq<string>)
    ensures |r| >= 1
    ensures forall t :: t in r <==> t in Tokens(original)
  {
    TokensNonEmpty(original);
    Dedup(Split(Lower(original)))
  }

  /**
   * `_calculate_substitution_score(original, candidate)`: the mean
   * contribution of the distinct tokens of `original`.
   */
  function SubstitutionScore(m: Matcher, original: string, candidate: string): real {
    var parts := DistinctTokens(original);
    if |parts| == 0 then 0.0
    else SumContributions(m, parts, Tokens(candidate)) / |parts| as real
  }

  /** The divisor is never zero: the original always has a token. */
  lemma SubstitutionDivisorPositive(original: string)
    ensures |DistinctTokens(original)| >= 1
    ensures Tokens(original) != {}
  {
    TokensNonEmpty(original);
  }

  lemma {:induction false} SumIsFullExactlyWhenAllPresent(m: Matcher, parts: seq<string>, candidateParts: set<string>)
    ensures SumContributions(m, parts, candidateParts) == |parts| as real <==>
            forall k :: 0 <= k < |parts| ==> parts[k] in candidateParts
  {
    if parts != [] {
      var front := parts[..|parts| - 1];
      SumIsFullExactlyWhenAllPresent(m, front, candidateParts);
      assert forall k :: 0 <= k < |front| ==> front[k] == parts[k];
    }
  }

  /** A mean of values in [0, 1] lies in [0, 1], and is 1 only for a full sum. */
  lemma MeanBounds(sum: real, n: real)
    requires 1.0 <= n && 0.0 <= sum <= n
    ensures 0.0 <= sum / n <= 1.0
    ensures sum / n == 1.0 <==> sum == n
  {
    assert (sum / n) * n == sum;
  }

  /** The substitution score lies in [0, 1]. */
  lemma SubstitutionScoreBounds(m: Matcher, original: string, candidate: string)
    ensures 0.0 <= SubstitutionScore(m, original, candidate) <= 1.0
  {
    var parts := DistinctTokens(original);
    MeanBounds(SumContributions(m, parts, Tokens(candidate)), |parts| as real);
  }

  /**
   * The score is exactly 1 when, and only when, every token of the
   * original is a token of the candidate.
   */
  lemma SubstitutionScoreIsOne(m: Matcher, original: string, candidate: string)
    ensures SubstitutionScore(m, original, candidate) == 1.0 <==> Tokens(original) <= Tokens(candidate)
  {
    var parts := DistinctTokens(original);
    var cp := Tokens(candidate);
    SumIsFullExactlyWhenAllPresent(m, parts, cp);
    var sum := SumContributions(m, parts, cp);
    var n := |parts| as real;
    MeanBounds(sum, n);
    if Tokens(original) <= cp {
      assert forall k :: 0 <= k < |parts| ==> parts[k] in cp by {
        forall k | 0 <= k < |parts| ensures parts[k] in cp {
          assert parts[k] in Tokens(original);
        }
      }
    }
    if sum == n {
      forall t | t in Tokens(original) ensures t in cp {
        assert t in parts;
      }
    }
  }

  /**
   * When no alias is listed twice and the matcher's index is the reverse
   * of its table, the canonical-word test reads the table directly: the
   * token is an alias of some canonical word the candidate has.
   */
  lemma ReverseTestReadsTable(m: Matcher, part: string, candidateParts: set<string>)
    requires Valid(m) && ValuesDisjoint(m.config.wordSubstitutions)
    ensures (part in m.reverse && m.reverse[part] in candidateParts) <==>
            exists i :: 0 <= i < |m.config.wordSubstitutions| && part in m.config.wordSubstitutions[i].1 &&
                        m.config.wordSubstitutions[i].0 in candidateParts
  {
    var t := m.config.wordSubstitutions;
    ReverseLastWriteWins(t, part);
    if part in m.reverse {
      var i :| 0 <= i < |t| && part in t[i].1;
      ReverseUnambiguous(t, i, part);
      forall j | 0 <= j < |t| && part in t[j].1 ensures t[j].0 == t[i].0 {
        ReverseUnambiguous(t, j, part);
      }
    }
  }

  /**
   * With the default table, a token `black` against a candidate token
   * `blk` contributes 0.8: `black` is an alias of `blk`.
   */
  lemma BlackMatchesBlk(m: Matcher, part: string, candidateParts: set<string>)
    requires Valid(m) && m.config == Default()
    requires part == "black" && candidateParts == {"blk"}
    ensures Contribution(m, part, candidateParts) == 0.8
  {
    var t := DefaultSubstitutions();
    DefaultSubstitutionsUnambiguous();
    assert part in t[4].1;
    ReverseUnambiguous(t, 4, part);
  }

  /** A bound on the abstract `SequenceMatcher.ratio`: its values lie in [0, 1]. */
  ghost predicate RatioBounded(ratio: (string, string) -> real) {
    forall a, b :: 0.0 <= ratio(a, b) <= 1.0
  }

  /**
   * `_calculate_similarity_score(normalized_query, query, candidate)`: the
   * ratio of the normalised forms weighted 0.7 plus the substitution score
   * of the raw names weighted 0.3.
   */
  function SimilarityScore(m: Matcher, ratio: (string, string) -> real, normalizedQuery: string,
                           query: string, candidate: string): real
  {
    0.7 * ratio(normalizedQuery, Normalize(candidate)) + 0.3 * SubstitutionScore(m, query, candidate)
  }

  /**
   * For a ratio in [0, 1] the similarity lies in [0, 1], and it is 1
   * exactly when the ratio is 1 and every token of the query is a token of
   * the candidate.
   */
  lemma SimilarityScoreBounds(m: Matcher, ratio: (string, string) -> real, normalizedQuery: string,
                              query: string, candidate: string)
    requires RatioBounded(ratio)
    ensures 0.0 <= SimilarityScore(m, ratio, normalizedQuery, query, candidate) <= 1.0
    ensures SimilarityScore(m, ratio, normalizedQuery, query, candidate) == 1.0 <==>
            ratio(normalizedQuery, Normalize(candidate)) == 1.0 && Tokens(query) <= Tokens(candidate)
  {
    SubstitutionScoreBounds(m, query, candidate);
    SubstitutionScoreIsOne(m, query, candidate);
    assert 0.0 <= ratio(normalizedQuery, Normalize(candidate)) <= 1.0;
  }
}
