/**
 * `SuggestionGenerator`: one batch lookup of every missing class name
 * against the lower-cased available names, reduced to a report of the
 * names that got suggestions and of their categories.
 */
module SuggestionGeneration {
  import opened Text
  import opened MatcherState
  import opened FuzzyResult
  import opened FuzzyMatching
  import opened FuzzyBatch

  /** `SuggestionReport`: per missing name its matches, and its category when one was detected. */
  datatype SuggestionReport = SuggestionReport(suggestions: map<string, seq<Match>>, categories: map<string, string>)

  /**
   * `{cls.lower(): cls for cls in available_classes}`, with the available
   * names in the iteration order `available`: every lower-cased name maps
   * back to an available spelling of it.
   */
  function AvailableLower(available: seq<string>): (r: map<string, string>)
    ensures r.Keys == set c | c in available :: Lower(c)
    ensures forall k :: k in r ==> r[k] in available && Lower(r[k]) == k
  {
    if available == [] then map[]
    else
      var front := available[..|available| - 1];
      var last := available[|available| - 1];
      assert available == front + [last];
      assert (set c | c in available :: Lower(c)) == (set c | c in front :: Lower(c)) + {Lower(last)};
      AvailableLower(front)[Lower(last) := last]
  }

  /**
   * When several available names share a lower-cased form, the one
   * iterated last is the spelling kept.
   */
  lemma {:induction false} LastSpellingWins(available: seq<string>, i: int)
    requires 0 <= i < |available|
    requires forall j :: i < j < |available| ==> Lower(available[j]) != Lower(available[i])
    ensures Lower(available[i]) in AvailableLower(available)
    ensures AvailableLower(available)[Lower(available[i])] == available[i]
  {
    if i < |available| - 1 {
      var front := available[..|available| - 1];
      assert front[i] == available[i];
      LastSpellingWins(front, i);
    }
  }

  /** `if result.category:` — a category was detected and is not empty. */
  predicate HasCategory(r: FuzzyMatchResult) {
    r.category.Some? && r.category.value != ""
  }

  /** The suggestions recorded for the names of `done`: the batch entries with a match. */
  function SuggestionsOf(batch: map<string, FuzzyMatchResult>, done: set<string>): map<string, seq<Match>> {
    map q | q in done && q in batch && IsTruthy(batch[q]) :: batch[q].matches
  }

  /** The categories recorded for the names of `done`: those of the entries with a match and a category. */
  function CategoriesOf(batch: map<string, FuzzyMatchResult>, done: set<string>): map<string, string> {
    map q | q in done && q in batch && IsTruthy(batch[q]) && HasCategory(batch[q]) :: batch[q].category.value
  }

  /** The report the loop of `generate_suggestions` builds from `batch`. */
  function ReportOf(batch: map<string, FuzzyMatchResult>): SuggestionReport {
    SuggestionReport(SuggestionsOf(batch, batch.Keys), CategoriesOf(batch, batch.Keys))
  }

  /**
   * The report holds exactly the entries with a match, each with its
   * matches, and the category of exactly those of them whose category is
   * set: a categorised name always has suggestions.
   */
  lemma ReportShape(batch: map<string, FuzzyMatchResult>)
    ensures forall q :: q in ReportOf(batch).suggestions <==> q in batch && batch[q].matches != []
    ensures forall q :: q in ReportOf(batch).suggestions ==> ReportOf(batch).suggestions[q] == batch[q].matches
    ensures forall q :: q in ReportOf(batch).categories <==>
              q in ReportOf(batch).suggestions && batch[q].category.Some? && batch[q].category.value != ""
    ensures forall q :: q in ReportOf(batch).categories ==> batch[q].category == Some(ReportOf(batch).categories[q])
  {
  }

  /** Recording one more batch entry. */
  lemma CollateNext(suggestions: map<string, seq<Match>>, categories: map<string, string>,
                    batch: map<string, FuzzyMatchResult>, done: set<string>, q: string)
    requires q in batch
    requires suggestions == SuggestionsOf(batch, done) && categories == CategoriesOf(batch, done)
    ensures (if IsTruthy(batch[q]) then suggestions[q := batch[q].matches] else suggestions) ==
            SuggestionsOf(batch, done + {q})
    ensures (if IsTruthy(batch[q]) && HasCategory(batch[q]) then categories[q := batch[q].category.value] else categories) ==
            CategoriesOf(batch, done + {q})
  {
  }

  /** The loop of `generate_suggestions` over the batch results. */
  method Collate(batch: map<string, FuzzyMatchResult>) returns (report: SuggestionReport)
    ensures report == ReportOf(batch)
  {
    var suggestions: map<string, seq<Match>> := map[];
    var categories: map<string, string> := map[];
    var keys := batch.Keys;
    var pending := keys;
    while pending != {}
      invariant pending <= keys
      invariant suggestions == SuggestionsOf(batch, keys - pending)
      invariant categories == CategoriesOf(batch, keys - pending)
      decreases |pending|
    {
      var q :| q in pending;
      CollateNext(suggestions, categories, batch, keys - pending, q);
      assert (keys - pending) + {q} == keys - (pending - {q});
      var result := batch[q];
      if result.matches != [] {
        if result.category.Some? && result.category.value != "" {
          categories := categories[q := result.category.value];
        }
        suggestions := suggestions[q := result.matches];
      }
      pending := pending - {q};
    }
    assert keys - pending == keys;
    report := SuggestionReport(suggestions, categories);
  }

  /** Every batch entry is a pre-filled empty entry, an error entry, or the query's own lookup. */
  lemma BatchEntryCases(m: Matcher, ratio: (string, string) -> real, queries: seq<string>, candidates: seq<string>,
                        maxSuggestions: int, faults: Faults, q: string)
    requires m.maxWorkers >= 1 && q in queries
    ensures q in BatchSpec(m, ratio, queries, candidates, maxSuggestions, faults)
    ensures var e := BatchSpec(m, ratio, queries, candidates, maxSuggestions, faults)[q];
            e == EmptyResult(q) || e == ErrorResult(q) || e == FindSimilarSpec(m, ratio, q, candidates, maxSuggestions)
  {
    BatchProperties(m, ratio, queries, candidates, maxSuggestions, faults);
  }

  /** A lookup's matches are at most `maxSuggestions` candidates. */
  lemma LookupBounded(m: Matcher, ratio: (string, string) -> real, q: string, candidates: seq<string>,
                      maxSuggestions: nat)
    ensures |FindSimilarSpec(m, ratio, q, candidates, maxSuggestions).matches| <= maxSuggestions
    ensures forall k :: 0 <= k < |FindSimilarSpec(m, ratio, q, candidates, maxSuggestions).matches| ==>
              FindSimilarSpec(m, ratio, q, candidates, maxSuggestions).matches[k].0 in candidates
  {
    if FindSimilarSpec(m, ratio, q, candidates, maxSuggestions).matchType == Fuzzy {
      FindSimilarFuzzyOrder(m, ratio, q, candidates, maxSuggestions);
      FindSimilarFuzzy(m, ratio, q, candidates, maxSuggestions);
    } else {
      FindSimilarDirect(m, ratio, q, candidates, maxSuggestions);
    }
  }

  /** Every batch entry holds at most `maxSuggestions` matches, each a candidate. */
  lemma BatchEntryBounded(m: Matcher, ratio: (string, string) -> real, queries: seq<string>, candidates: seq<string>,
                          maxSuggestions: nat, faults: Faults, q: string)
    requires m.maxWorkers >= 1 && q in queries
    ensures q in BatchSpec(m, ratio, queries, candidates, maxSuggestions, faults)
    ensures |BatchSpec(m, ratio, queries, candidates, maxSuggestions, faults)[q].matches| <= maxSuggestions
    ensures forall k :: 0 <= k < |BatchSpec(m, ratio, queries, candidates, maxSuggestions, faults)[q].matches| ==>
              BatchSpec(m, ratio, queries, candidates, maxSuggestions, faults)[q].matches[k].0 in candidates
  {
    BatchEntryCases(m, ratio, queries, candidates, maxSuggestions, faults, q);
    LookupBounded(m, ratio, q, candidates, maxSuggestions);
  }

  class SuggestionGenerator {
    const fuzzyMatcher: Matcher

    /**
     * `SuggestionGenerator(max_workers)`: a matcher with the default
     * configuration; `max_workers` is accepted and not used, and
     * `cpuCount` is what `os.cpu_count()` reports.
     */
    constructor (maxWorkers: Option<int>, cpuCount: Option<nat>)
      ensures MatcherState.Valid(fuzzyMatcher) && fuzzyMatcher.config == FuzzyConfig.Default()
      ensures cpuCount.None? || cpuCount.value == 0 ==> fuzzyMatcher.maxWorkers == 5
      ensures cpuCount.Some? && cpuCount.value > 0 ==>
                fuzzyMatcher.maxWorkers == if cpuCount.value + 4 < 32 then cpuCount.value + 4 else 32
    {
      var m := NewMatcher(None, cpuCount);
      fuzzyMatcher := m;
    }

    /**
     * `generate_suggestions`: the missing names (in the iteration order
     * `missing`) are looked up in one batch, with the default three
     * suggestions, against the lower-cased available names (enumerated in
     * `candidates`); the report keeps the results with a match.
     */
    method GenerateSuggestions(missing: seq<string>, available: seq<string>, candidates: seq<string>,
                               ratio: (string, string) -> real, faults: Faults)
      returns (report: SuggestionReport)
      requires MatcherState.Valid(fuzzyMatcher)
      requires (set c | c in candidates) == AvailableLower(available).Keys
      ensures report == ReportOf(BatchSpec(fuzzyMatcher, ratio, missing, candidates, 3, faults))
    {
      var batch := FindSimilarClassesBatch(fuzzyMatcher, ratio, missing, candidates, 3, faults);
      report := Collate(batch);
    }
  }

  /**
   * What `generate_suggestions` reports: only missing names get
   * suggestions, one to three of them, each a lower-cased available name
   * whose original spelling the log line finds in `available_lower`; only
   * names with suggestions get a category; and up to 100 missing names,
   * a name has suggestions exactly when its own lookup found a match.
   */
  lemma GeneratedReport(m: Matcher, ratio: (string, string) -> real, missing: seq<string>, available: seq<string>,
                        candidates: seq<string>, faults: Faults)
    requires MatcherState.Valid(m)
    requires (set c | c in candidates) == AvailableLower(available).Keys
    ensures var report := ReportOf(BatchSpec(m, ratio, missing, candidates, 3, faults));
            report.categories.Keys <= report.suggestions.Keys &&
            forall q :: q in report.suggestions ==>
              q in missing && 1 <= |report.suggestions[q]| <= 3 &&
              forall k :: 0 <= k < |report.suggestions[q]| ==>
                report.suggestions[q][k].0 in AvailableLower(available) &&
                Lower(AvailableLower(available)[report.suggestions[q][k].0]) == report.suggestions[q][k].0
    ensures |missing| <= 100 ==>
              forall q :: q in missing ==>
                (q in ReportOf(BatchSpec(m, ratio, missing, candidates, 3, faults)).suggestions <==>
                 IsTruthy(FindSimilarSpec(m, ratio, q, candidates, 3)))
  {
    var batch := BatchSpec(m, ratio, missing, candidates, 3, faults);
    var report := ReportOf(batch);
    ReportShape(batch);
    BatchProperties(m, ratio, missing, candidates, 3, faults);
    forall q | q in report.suggestions
      ensures q in missing && 1 <= |report.suggestions[q]| <= 3
      ensures forall k :: 0 <= k < |report.suggestions[q]| ==> report.suggestions[q][k].0 in AvailableLower(available)
    {
      BatchEntryBounded(m, ratio, missing, candidates, 3, faults, q);
      forall k | 0 <= k < |report.suggestions[q]| ensures report.suggestions[q][k].0 in AvailableLower(available) {
        assert report.suggestions[q][k].0 in candidates;
      }
    }
  }
}
