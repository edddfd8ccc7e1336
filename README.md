# Mission dependency scanner — a Dafny model of its matching and validation core

The mission dependency scanner checks Arma mission files against the content
of the game and its mods. It reports equipment class names and asset paths
that a mission references but no loaded mod provides. For each missing class
name it also suggests replacements that look alike.

This project models the parts of the scanner that decide these answers, and
proves what they promise:

- **The fuzzy class matcher** (`FuzzyClassMatcher`):
  - name normalisation (`normalize_class_name`);
  - the `[_\s]+` tokeniser;
  - category detection;
  - the reverse substitution index;
  - the substitution and similarity scores;
  - the direct-match short-circuit, the candidate filter and the weighted scoring of `find_similar_classes`;
  - the chunked batch entry point `find_similar_classes_batch` with `_process_batch_chunk`.
- **Its configuration** (`FuzzyMatchConfig`) and its **result record** (`FuzzyMatchResult`).
- **The analysers built on the matcher**:
  - `ClassAnalyzer`: a run-wide cache of suggestions, copied into every mission's result;
  - `SuggestionGenerator`: one batch lookup, reduced to a report;
  - `ResultDiffer`: the missing dependencies of one task that another task does not also miss.
- **The validators**:
  - `DependencyValidator._validate_single_mission`, `_validate_classes` and `validate_missions`;
  - the stand-alone script's `validate_mission` and `needs_asset_scanning`;
  - the mission package's `DependencyScanner.validate_mission`.
- **The records they share**: `ScanResult.sanitize` and `MissionClass`.
- **The cache helpers** `_normalize_path` and `get_cache_key`.

Pure code is modelled as functions and lemmas. Code that updates state
becomes imperative Dafny:

- Loops become methods whose loop invariants tie their state to a specification function.
- `ScanResult`, `ValidationResult`, `ClassAnalyzer`, `DependencyValidator`, `SuggestionGenerator` and the mission package's `DependencyScanner` are classes, because the source updates their fields in place or holds them as objects.
- The matcher's state never changes after construction, so it is a value.

Python's sets are iterated in an order the program cannot see. The model
therefore fixes that order in a parameter (`candidates`, `missing`,
`validOrder`), or picks elements with `:|`, whichever the contract needs.

Normalisation is not idempotent; the model follows the code:

- `cls_cls_x` normalises to `cls_x`, and a second pass gives `x`;
- `x_1_2` normalises to `x_1`, and a second pass gives `x`.

The lemmas `NormalizerExamples.NormalizeNotIdempotentOnPrefix` and
`NormalizerExamples.NormalizeNotIdempotentOnIndex` prove both.

`ValidationResult` in `src/dependency_scanner/core/types.py` declares no
`class_suggestions` field, yet `ClassAnalyzer` writes one. As written, that
write raises `AttributeError` (see "## Left out"). The model gives the
record that field, starting empty, and models the intended copy.

Files: `text.dfy`, `name_normalizer.dfy`, `fuzzy_config.dfy`, `tokens.dfy`,
`substitution.dfy`, `fuzzy_result.dfy`, `fuzzy_matcher.dfy`, `batch.dfy`,
`scan_types.dfy`, `class_analyzer.dfy`, `validator.dfy`,
`suggestion_generator.dfy`, `result_differ.dfy`, `core_scanner.dfy`,
`mission_scanner.dfy`, `cache_utils.dfy`.

## Model

| member | source | states |
|---|---|---|
| Text.Lower | src/dependency_scanner/core/analysis/fuzzy_matcher.py:43 | `lower()` on ASCII keeps the length, lowers each character, and leaves no upper-case letter |
| Text.PyPrefix | src/dependency_scanner/core/analysis/fuzzy_matcher.py:77 | `s[:k]` is a prefix of `s` of length `min(k, len(s))`, and a negative `k` counts from the end |
| Text.Dedup | src/dependency_scanner/core/analysis/fuzzy_matcher.py:222 | a Python set of tokens as a sequence: the same members, each once |
| NameNormalizer.StripPrefix | src/dependency_scanner/core/analysis/fuzzy_matcher.py:44 | the anchored prefix substitution: removes one leading `cls_`, `class_` or `item_` when the name starts with it, otherwise keeps the name (proved in `StripPrefixRemovesOnePrefix`) |
| NameNormalizer.StripNumberSuffix | src/dependency_scanner/core/analysis/fuzzy_matcher.py:45 | `re.sub(r'_\d+$', '', s)`: removes a final `_` followed by its maximal trailing digit run, otherwise keeps the name |
| NameNormalizer.Collapse | src/dependency_scanner/core/analysis/fuzzy_matcher.py:46 | `re.sub(r'_+', '_', s)`: every run of underscores becomes one (its shape is proved in `CollapseShape` and the lemmas after it) |
| NameNormalizer.TrimLeft | src/dependency_scanner/core/analysis/fuzzy_matcher.py:47 | the leading half of `strip('_')`: drops the leading underscore run |
| NameNormalizer.TrimRight | src/dependency_scanner/core/analysis/fuzzy_matcher.py:47 | the trailing half of `strip('_')`: drops the trailing underscore run |
| NameNormalizer.StripPrefixRemovesOnePrefix | src/dependency_scanner/core/analysis/fuzzy_matcher.py:44 | prefix removal keeps a suffix of the name; what it removes is exactly one of `cls_`, `class_`, `item_`; a name with none of them is kept whole |
| NameNormalizer.TrailingDigits | src/dependency_scanner/core/analysis/fuzzy_matcher.py:27 | the counted characters are the maximal run of digits ending the name |
| NameNormalizer.StripNumberSuffixKeepsPrefix | src/dependency_scanner/core/analysis/fuzzy_matcher.py:45 | removing `_\d+$` keeps a prefix of the name |
| NameNormalizer.CollapseShape | src/dependency_scanner/core/analysis/fuzzy_matcher.py:46 | after collapsing `_+` no `__` remains, the name never grows, and its first and last characters are kept |
| NameNormalizer.CollapseDropsOnlyUnderscores | src/dependency_scanner/core/analysis/fuzzy_matcher.py:46 | collapsing drops only underscores: every other character survives, in order |
| NameNormalizer.CollapseKeepsCollapsed | src/dependency_scanner/core/analysis/fuzzy_matcher.py:46 | a name without `__` passes collapsing unchanged |
| NameNormalizer.CollapseJoinsWords | src/dependency_scanner/core/analysis/fuzzy_matcher.py:46 | a word, a run of underscores and the rest collapse to the word, one `_` and the collapsed rest |
| NameNormalizer.TrimLeftDropsUnderscores | src/dependency_scanner/core/analysis/fuzzy_matcher.py:47 | left trimming removes exactly a leading run of underscores |
| NameNormalizer.TrimRightDropsUnderscores | src/dependency_scanner/core/analysis/fuzzy_matcher.py:47 | right trimming removes exactly a trailing run of underscores |
| NameNormalizer.Strip | src/dependency_scanner/core/analysis/fuzzy_matcher.py:47 | `strip('_')` leaves no underscore at either end |
| NameNormalizer.LowerKeepsLowerCase | src/dependency_scanner/core/analysis/fuzzy_matcher.py:43 | lower-casing a lower-case name changes nothing |
| NameNormalizer.Normalize | src/dependency_scanner/core/analysis/fuzzy_matcher.py:40-47 | `normalize_class_name`: lower-case, drop one prefix, drop the index, collapse underscores, strip edge underscores, in that order (its shape is proved in `NormalizeShape`) |
| NameNormalizer.NormalizeShape | src/dependency_scanner/core/analysis/fuzzy_matcher.py:40-47 | every normalised name is lower case, has no `__`, and neither starts nor ends with `_` |
| NameNormalizer.NormalizeAfterPrefixAndSuffix | src/dependency_scanner/core/analysis/fuzzy_matcher.py:40-47 | when prefix and index removal leave a lower-case, collapsed, unpadded name, that name is the normal form |
| NormalizerExamples.NormalizeStripsPrefixAndIndex | tests/test_fuzzy_matcher.py:45 | `cls_helmet_combat_01` normalises to `helmet_combat` |
| NormalizerExamples.NormalizeStripsItemPrefix | tests/test_fuzzy_matcher.py:46 | `item_vest_carrier` normalises to `vest_carrier` |
| NormalizerExamples.NormalizeCollapsesUnderscores | tests/test_fuzzy_matcher.py:47 | `uniform___combat___mc` normalises to `uniform_combat_mc` |
| NormalizerExamples.NormalizeNotIdempotentOnPrefix | src/dependency_scanner/core/analysis/fuzzy_matcher.py:44 | one pass removes one prefix only: `cls_cls_x` gives `cls_x`, and normalising again gives `x` |
| NormalizerExamples.NormalizeNotIdempotentOnIndex | src/dependency_scanner/core/analysis/fuzzy_matcher.py:45 | one pass removes the last index only: `x_1_2` gives `x_1`, and normalising again gives `x` |
| FuzzyConfig.Keys | src/dependency_scanner/core/analysis/fuzzy_config.py:15-21 | the keys of a table, in declaration order |
| FuzzyConfig.Get | src/dependency_scanner/core/analysis/fuzzy_matcher.py:228 | `dict.get(key, set())`: the set stored under the first occurrence of the key, or the empty set when the key is absent |
| FuzzyConfig.Default | src/dependency_scanner/core/analysis/fuzzy_config.py:7-32 | `FuzzyMatchConfig()`: every field at its declared default, with the category and substitution tables in declaration order (the values are proved in `DefaultThresholds` and the two lemmas after it) |
| FuzzyConfig.DefaultThresholds | src/dependency_scanner/core/analysis/fuzzy_config.py:7-13 | default similarity threshold 0.75, three suggestions, high-confidence threshold 0.9, and weights adding up to 1 |
| FuzzyConfig.DefaultCategoriesDisjoint | src/dependency_scanner/core/analysis/fuzzy_config.py:15-21 | the categories are helmet, vest, uniform, weapon, attachment, in that order, and no two share a keyword |
| FuzzyConfig.DefaultSubstitutionsUnambiguous | src/dependency_scanner/core/analysis/fuzzy_config.py:23-32 | no alias is listed under two canonical words, so building the reverse index overwrites nothing |
| Tokenizer.SkipSeps | src/dependency_scanner/core/analysis/fuzzy_matcher.py:29 | skipping a separator run leaves no separator in front and keeps a name that starts with none |
| Tokenizer.Split | src/dependency_scanner/core/analysis/fuzzy_matcher.py:29 | `re.split(r'[_\s]+', s)` always yields at least one piece |
| Tokenizer.SplitPiecesHaveNoSep | src/dependency_scanner/core/analysis/fuzzy_matcher.py:29 | no piece of a split contains `_` or whitespace |
| Tokenizer.SplitKeepsAllButSeps | src/dependency_scanner/core/analysis/fuzzy_matcher.py:29 | the pieces, glued back together, are the name with its separators removed: splitting loses nothing else |
| Tokenizer.SplitWord | src/dependency_scanner/core/analysis/fuzzy_matcher.py:29 | a word without separators splits to itself |
| Tokenizer.SplitTwoWords | src/dependency_scanner/core/analysis/fuzzy_matcher.py:29 | two words joined by one separator split into exactly those two words |
| Tokenizer.Tokens | src/dependency_scanner/core/analysis/fuzzy_matcher.py:222 | the token set holds exactly the pieces of the split of the lower-cased name |
| Tokenizer.TokensNonEmpty | src/dependency_scanner/core/analysis/fuzzy_matcher.py:222 | the token set is never empty, because the split always yields a piece (possibly the empty one) |
| Tokenizer.TokensHaveNoSep | src/dependency_scanner/core/analysis/fuzzy_matcher.py:222 | no token contains a separator |
| Tokenizer.SimcUsNeverAToken | src/dependency_scanner/core/analysis/fuzzy_config.py:27 | the alias `simc_us` contains `_`, so no name ever has it as a token |
| CategoryDetection.FirstCategory | src/dependency_scanner/core/analysis/fuzzy_matcher.py:147-150 | none exactly when no category meets the tokens; otherwise a meeting category that no earlier category precedes |
| CategoryDetection.DetectCategory | src/dependency_scanner/core/analysis/fuzzy_matcher.py:143-150 | `_detect_category` (and `get_category_match`) is None exactly when no configured category meets the name's tokens |
| CategoryDetection.DetectCategoryIsFirst | src/dependency_scanner/core/analysis/fuzzy_matcher.py:147-149 | the first meeting category in declaration order wins, whatever later categories also meet |
| CategoryDetection.HelmetBeatsUniform | tests/test_fuzzy_matcher.py:57 | `helmet_combat` is a helmet, although `combat` is also a uniform keyword |
| MatcherState.ReverseOf | src/dependency_scanner/core/analysis/fuzzy_matcher.py:32-38 | the reverse substitution index: each alias maps to the canonical word processed last among those listing it (proved in `ReverseLastWriteWins`; `BuildReverseSubstitutions` is proved to compute it) |
| MatcherState.ReverseLastWriteWins | src/dependency_scanner/core/analysis/fuzzy_matcher.py:32-38 | an alias is indexed exactly when some canonical word lists it, and it maps to the last canonical word that lists it |
| MatcherState.ReverseUnambiguous | src/dependency_scanner/core/analysis/fuzzy_matcher.py:32-38 | when no alias is listed twice, each alias maps to its own canonical word |
| MatcherState.BuildReverseSubstitutions | src/dependency_scanner/core/analysis/fuzzy_matcher.py:32-38 | the two nested loops build exactly the last-write-wins reverse index |
| MatcherState.NewMatcher | src/dependency_scanner/core/analysis/fuzzy_matcher.py:17-21 | a missing configuration becomes the default one; the reverse index is built from the table; `min(32, (cpu_count or 1) + 4)` workers |
| SubstitutionScoring.Contribution | src/dependency_scanner/core/analysis/fuzzy_matcher.py:226-230 | a token contributes 1.0, 0.8 or 0.0, and 1.0 exactly when the candidate has it |
| SubstitutionScoring.SumContributions | src/dependency_scanner/core/analysis/fuzzy_matcher.py:225-232 | the sum over the tokens lies between 0 and the number of tokens |
| SubstitutionScoring.DistinctTokens | src/dependency_scanner/core/analysis/fuzzy_matcher.py:222 | the distinct tokens are exactly the token set, and there is at least one |
| SubstitutionScoring.SubstitutionDivisorPositive | src/dependency_scanner/core/analysis/fuzzy_matcher.py:234 | the divisor `len(original_parts)` is never zero |
| SubstitutionScoring.SumIsFullExactlyWhenAllPresent | src/dependency_scanner/core/analysis/fuzzy_matcher.py:225-232 | the sum reaches the token count exactly when the candidate has every token |
| SubstitutionScoring.SubstitutionScore | src/dependency_scanner/core/analysis/fuzzy_matcher.py:220-234 | `_calculate_substitution_score`: the mean contribution of the distinct tokens of the original against the candidate's tokens (bounds in `SubstitutionScoreBounds`, the score-1 case in `SubstitutionScoreIsOne`) |
| SubstitutionScoring.SubstitutionScoreBounds | src/dependency_scanner/core/analysis/fuzzy_matcher.py:220-234 | the substitution score lies in [0, 1] |
| SubstitutionScoring.SubstitutionScoreIsOne | src/dependency_scanner/core/analysis/fuzzy_matcher.py:220-234 | the score is 1 exactly when every token of the original is a token of the candidate |
| SubstitutionScoring.ReverseTestReadsTable | src/dependency_scanner/core/analysis/fuzzy_matcher.py:229 | with an unambiguous table and its reverse index, the canonical-word test means "the token is an alias of a canonical word the candidate has" |
| SubstitutionScoring.BlackMatchesBlk | src/dependency_scanner/core/analysis/fuzzy_config.py:28 | under the default table, a token `black` scores 0.8 against a candidate with `blk` |
| SubstitutionScoring.SimilarityScore | src/dependency_scanner/core/analysis/fuzzy_matcher.py:206-218 | `_calculate_similarity`: 0.7 times the ratio of the normalised forms plus 0.3 times the substitution score of the raw names (bounds in `SimilarityScoreBounds`) |
| SubstitutionScoring.SimilarityScoreBounds | src/dependency_scanner/core/analysis/fuzzy_matcher.py:206-218 | for a ratio in [0, 1] the similarity lies in [0, 1], and it is 1 exactly when the ratio is 1 and the candidate has every token of the query |
| FuzzyResult.WithDefaults | src/dependency_scanner/core/analysis/fuzzy_result.py:5-11 | a result built from a name and matches has no category, an empty normalised form and match type fuzzy |
| FuzzyResult.BestMatch | src/dependency_scanner/core/analysis/fuzzy_result.py:13-16 | `best_match` is None exactly when there are no matches, and otherwise the first match |
| FuzzyResult.Iter | src/dependency_scanner/core/analysis/fuzzy_result.py:27-29 | iterating yields the matches, in order |
| FuzzyResult.HasHighConfidenceMatch | src/dependency_scanner/core/analysis/fuzzy_result.py:18-21 | `has_high_confidence_match`: there is a first match and it scores at least 0.8 |
| FuzzyResult.IsTruthy | src/dependency_scanner/core/analysis/fuzzy_result.py:23-25 | `__bool__`: the result has a match |
| FuzzyResult.AccessorsAgree | src/dependency_scanner/core/analysis/fuzzy_result.py:13-25 | truthy exactly when there is a best match, which is the first item iterated; high confidence exactly when that match scores at least 0.8 |
| FuzzyMatching.DirectScore | src/dependency_scanner/core/analysis/fuzzy_matcher.py:155-160 | the score a candidate gets in `_find_direct_matches`: 1.0 for an equal normal form, else 0.8 when the substitution score of the normal forms exceeds 0.8, else none |
| FuzzyMatching.DirectMatchesOf | src/dependency_scanner/core/analysis/fuzzy_matcher.py:152-161 | the direct matches: each candidate with a direct score, with that score, in candidate order (the loop is proved to build it in `FindDirectMatches`) |
| FuzzyMatching.FindDirectMatches | src/dependency_scanner/core/analysis/fuzzy_matcher.py:152-161 | the loop builds the candidates with a direct score, in candidate order |
| FuzzyMatching.DirectMatchesSound | src/dependency_scanner/core/analysis/fuzzy_matcher.py:155-160 | each direct match is a candidate with score 1.0 for the same normal form, and otherwise 0.8 for a normalised substitution score above 0.8 |
| FuzzyMatching.DirectMatchesComplete | src/dependency_scanner/core/analysis/fuzzy_matcher.py:155-160 | every candidate that qualifies is among the direct matches |
| FuzzyMatching.Keep | src/dependency_scanner/core/analysis/fuzzy_matcher.py:168-182 | a candidate survives the filter when it is non-empty, differs from the query, has no conflicting detected category, and shares a token with the query |
| FuzzyMatching.FilterOf | src/dependency_scanner/core/analysis/fuzzy_matcher.py:163-184 | the candidates that `Keep` accepts, in candidate order (the loop is proved to build it in `FilterCandidates`) |
| FuzzyMatching.FilterCandidates | src/dependency_scanner/core/analysis/fuzzy_matcher.py:163-184 | the loop keeps exactly the candidates that pass the filter, in candidate order |
| FuzzyMatching.FilterExact | src/dependency_scanner/core/analysis/fuzzy_matcher.py:168-182 | a candidate survives exactly when it is non-empty, differs from the query, shares a token with the query, and has no category or the query's category whenever the query has one |
| FuzzyMatching.CollectFrom | src/dependency_scanner/core/analysis/fuzzy_matcher.py:190-202 | the scoring loop: each remaining candidate at or above the threshold is appended with its score, and the loop stops once `max_suggestions` held matches all score above 0.9 |
| FuzzyMatching.CollectFromSound | src/dependency_scanner/core/analysis/fuzzy_matcher.py:190-202 | the scoring loop only appends, and only candidates with their own score, at least the threshold |
| FuzzyMatching.CollectFromComplete | src/dependency_scanner/core/analysis/fuzzy_matcher.py:190-202 | the scoring loop misses only what its early exit skips: a remaining candidate scoring at least the threshold is collected with its score, unless the loop stopped first holding `max_suggestions` matches that all score above 0.9 |
| FuzzyMatching.InsertDesc | src/dependency_scanner/core/analysis/fuzzy_matcher.py:204 | inserting into a descending list keeps it descending and adds exactly that element |
| FuzzyMatching.SortDesc | src/dependency_scanner/core/analysis/fuzzy_matcher.py:204 | `sorted(..., reverse=True)` by score gives a permutation with non-increasing scores |
| FuzzyMatching.InsertDescStable | src/dependency_scanner/core/analysis/fuzzy_matcher.py:204 | an inserted match goes in front of every match of its own score, and their order is kept |
| FuzzyMatching.SortDescStable | src/dependency_scanner/core/analysis/fuzzy_matcher.py:204 | the sort is stable: for every score, the matches with that score come out in input order, which decides the tied candidate kept by the cut |
| FuzzyMatching.CollectedOf | src/dependency_scanner/core/analysis/fuzzy_matcher.py:190-202 | the list `_score_candidates` holds when its loop ends, before sorting: `CollectFrom` over the candidates with the weighted similarity, starting empty |
| FuzzyMatching.ScoredOf | src/dependency_scanner/core/analysis/fuzzy_matcher.py:186-204 | what `_score_candidates` returns: the collected matches sorted by descending score, cut to `config.max_suggestions` (properties in `ScoredProperties`, `ScoredLength`, `ScoredKeepsBest` and `ScoredKeepsReached`) |
| FuzzyMatching.ScoreCandidates | src/dependency_scanner/core/analysis/fuzzy_matcher.py:186-204 | the loop with its early exit, the sort and the cut to `config.max_suggestions` compute the scored list |
| FuzzyMatching.ScoredProperties | src/dependency_scanner/core/analysis/fuzzy_matcher.py:186-204 | the scored list is descending, holds at most `config.max_suggestions` matches, and each is a candidate with its similarity score, at least the threshold |
| FuzzyMatching.ScoredLength | src/dependency_scanner/core/analysis/fuzzy_matcher.py:204 | the cut keeps exactly `min(config.max_suggestions, len(collected))` matches |
| FuzzyMatching.ScoredKeepsBest | src/dependency_scanner/core/analysis/fuzzy_matcher.py:204 | the cut keeps the best: a collected match it leaves out scores no more than any kept one |
| FuzzyMatching.ScoredKeepsReached | src/dependency_scanner/core/analysis/fuzzy_matcher.py:186-204 | a candidate whose similarity reaches the threshold is kept with its score, unless the scored list already holds `config.max_suggestions` matches |
| FuzzyMatching.FindSimilarSpec | src/dependency_scanner/core/analysis/fuzzy_matcher.py:49-81 | what `find_similar_classes` returns: the direct matches cut to `max_suggestions` when there are any, else the filtered and scored candidates cut to `max_suggestions`, with the query, its normal form and its category recorded (properties in `FindSimilarRecords`, `FindSimilarDirect`, `FindSimilarFuzzy`, `FindSimilarFuzzyOrder`) |
| FuzzyMatching.FindSimilarClasses | src/dependency_scanner/core/analysis/fuzzy_matcher.py:49-81 | the method computes what `find_similar_classes` returns, by the direct, filter and scoring steps |
| FuzzyMatching.FindSimilarRecords | src/dependency_scanner/core/analysis/fuzzy_matcher.py:49-81 | a result records the query, its normal form and its category, and it is direct exactly when some candidate qualifies as a direct match |
| FuzzyMatching.FindSimilarDirect | src/dependency_scanner/core/analysis/fuzzy_matcher.py:56-65 | a direct result holds at most `max_suggestions` matches, each a candidate scored 1.0 for the same normal form and 0.8 otherwise |
| FuzzyMatching.FindSimilarFuzzyOrder | src/dependency_scanner/core/analysis/fuzzy_matcher.py:71-81 | a fuzzy result is descending and holds at most `min(config.max_suggestions, max_suggestions)` matches |
| FuzzyMatching.FindSimilarFuzzy | src/dependency_scanner/core/analysis/fuzzy_matcher.py:67-81 | each fuzzy match is a candidate that passed the filter, scored `0.7*ratio + 0.3*sub` and at least the threshold |
| FuzzyMatching.SimilarCandidateIsFound | src/dependency_scanner/core/analysis/fuzzy_matcher.py:49-81 | similar names are found: when a candidate passes the filter and its similarity reaches the threshold, and both suggestion limits are positive, the result has a match, whether direct or fuzzy |
| FuzzyMatching.ExactCandidateIsDirect | src/dependency_scanner/core/analysis/fuzzy_matcher.py:155-158 | a query that is itself a candidate always gets a direct result, and a truthy one for a positive `max_suggestions` |
| FuzzyMatching.FuzzyBestMatchIsTop | src/dependency_scanner/core/analysis/fuzzy_matcher.py:204 | the best match of a fuzzy result scores at least as high as every other match |
| FuzzyBatch.EmptyResult | src/dependency_scanner/core/analysis/fuzzy_matcher.py:88-94 | the pre-filled entry has no matches, records the normalised query, and has no category and match type fuzzy |
| FuzzyBatch.ErrorResult | src/dependency_scanner/core/analysis/fuzzy_matcher.py:136-140 | a query whose lookup raised gets no matches and its raw text as normalised form |
| FuzzyBatch.ChunkEntry | src/dependency_scanner/core/analysis/fuzzy_matcher.py:129-140 | what a chunk stores for one query: the error entry when its lookup raised, otherwise its lookup |
| FuzzyBatch.ChunkEntries | src/dependency_scanner/core/analysis/fuzzy_matcher.py:125-141 | `ChunkEntry` as a function of the query, the entry each chunk dictionary holds |
| FuzzyBatch.ProcessBatchChunk | src/dependency_scanner/core/analysis/fuzzy_matcher.py:125-141 | every query of the chunk gets an entry: its lookup, or the error entry when the lookup raised |
| FuzzyBatch.ChunkSize | src/dependency_scanner/core/analysis/fuzzy_matcher.py:100 | the chunk size is `max(100, n // max_workers)`, hence at least 100; only the last chunk may hold fewer queries (`ChunksPartition`) |
| FuzzyBatch.Chunks | src/dependency_scanner/core/analysis/fuzzy_matcher.py:101-102 | `[queries[i:i + size] for i in range(0, len(queries), size)]` (proved to partition the queries in `ChunksPartition`) |
| FuzzyBatch.ChunksPartition | src/dependency_scanner/core/analysis/fuzzy_matcher.py:100-102 | the chunks glue back to the query list; none is empty or longer than the chunk size; all but the last are full |
| FuzzyBatch.ChunksCover | src/dependency_scanner/core/analysis/fuzzy_matcher.py:101-102 | every query lies in some chunk, and chunks hold only queries |
| FuzzyBatch.MergeFailedChunk | src/dependency_scanner/core/analysis/fuzzy_matcher.py:111-116 | a chunk that raised changes no entry |
| FuzzyBatch.MergeChunk | src/dependency_scanner/core/analysis/fuzzy_matcher.py:114 | a chunk that did not raise overwrites exactly the entries of its own queries |
| FuzzyBatch.MergeFoldIsMerged | src/dependency_scanner/core/analysis/fuzzy_matcher.py:111-116 | merging the chunks in order gives each query the entry of a chunk that holds it and did not raise, and leaves every other query pre-filled |
| FuzzyBatch.LookedUpEnds | src/dependency_scanner/core/analysis/fuzzy_matcher.py:119-121 | before the sequential loop every entry is pre-filled; after it every entry is looked up |
| FuzzyBatch.Prefill | src/dependency_scanner/core/analysis/fuzzy_matcher.py:88-94 | the pre-fill gives every query the empty entry |
| FuzzyBatch.MergeChunks | src/dependency_scanner/core/analysis/fuzzy_matcher.py:104-116 | the thread-pool path merges the dictionary of each chunk that did not raise, in chunk order |
| FuzzyBatch.LookUpEach | src/dependency_scanner/core/analysis/fuzzy_matcher.py:117-121 | the sequential path gives every query its own lookup |
| FuzzyBatch.FindSimilarClassesBatch | src/dependency_scanner/core/analysis/fuzzy_matcher.py:83-123 | the method computes the batch dictionary: pre-fill, then chunks above 100 queries, else one lookup per query |
| FuzzyBatch.BatchSpec | src/dependency_scanner/core/analysis/fuzzy_matcher.py:83-123 | the dictionary `find_similar_classes_batch` returns: each query's lookup for at most 100 queries, otherwise the pre-fill updated, chunk by chunk, by each chunk that did not raise (properties in `BatchProperties`; `FindSimilarClassesBatch` is proved to compute it) |
| FuzzyBatch.BatchProperties | src/dependency_scanner/core/analysis/fuzzy_matcher.py:83-123 | the keys are exactly the distinct queries; with at most 100 queries, or no fault, each entry is the query's own lookup; a query whose every chunk raised keeps its empty entry |
| ScanTypes.Sanitized | src/dependency_scanner/core/types.py:80-84 | a sanitised set is the set without its empty name |
| ScanTypes.SanitizedIdempotent | src/dependency_scanner/core/types.py:78-84 | sanitising twice is sanitising once |
| ScanTypes.ScanResult.constructor | src/dependency_scanner/core/types.py:67-76 | every set and dictionary starts empty |
| ScanTypes.ScanResult.Sanitize | src/dependency_scanner/core/types.py:78-84 | each of the five sets loses its empty name, no set keeps one, and the two dictionaries are unchanged |
| ScanTypes.HasProperty | src/dependency_scanner/core/types.py:51-53 | `has_property`: the property is a key of the class's properties |
| ScanTypes.GetProperty | src/dependency_scanner/core/types.py:55-57 | `get_property`: the stored list, or `[]` when the property is absent |
| ScanTypes.PropertyGettersAgree | src/dependency_scanner/core/types.py:51-57 | `has_property` is key membership; `get_property` gives the stored list, or `[]` when the property is absent |
| ScanTypes.ValidationResult.constructor | src/dependency_scanner/core/types.py:86-93 | the four name sets and the property results are those given, and there are no suggestions yet |
| ClassAnalysis.AllValid | src/dependency_scanner/core/analysis/class_analyzer.py:24-25 | the union of all valid class sets: it holds each of them and nothing else |
| ClassAnalysis.AllMissing | src/dependency_scanner/core/analysis/class_analyzer.py:24-26 | the union of all missing class sets: it holds each of them and nothing else |
| ClassAnalysis.Kept | src/dependency_scanner/core/analysis/class_analyzer.py:71-76 | the suggestions cache gains: the lookup of each given name whose lookup has a match |
| ClassAnalysis.KeptOnlyTruthy | src/dependency_scanner/core/analysis/class_analyzer.py:71-76 | only looked-up names are cached, and only lookups that found a match |
| ClassAnalysis.KeptAdd | src/dependency_scanner/core/analysis/class_analyzer.py:73-76 | looking one more name up caches its result exactly when the result is truthy |
| ClassAnalysis.Applied | src/dependency_scanner/core/analysis/class_analyzer.py:81-83 | the applied suggestions are the cached ones for exactly the result's missing names that have one |
| ClassAnalysis.AppliedAdd | src/dependency_scanner/core/analysis/class_analyzer.py:81-83 | applying one more missing name adds its cached entry if there is one |
| ClassAnalysis.AppliedTwice | src/dependency_scanner/core/analysis/class_analyzer.py:78-83 | applying the same cached suggestions a second time changes nothing |
| ClassAnalysis.ClassAnalyzer.constructor | src/dependency_scanner/core/analysis/class_analyzer.py:13-16 | a missing matcher is replaced by a default one; nothing is processed or cached yet; lookups use three suggestions |
| ClassAnalysis.ClassAnalyzer.CacheOne | src/dependency_scanner/core/analysis/class_analyzer.py:74-76 | one name is looked up, and its result is cached when it has a match |
| ClassAnalysis.ClassAnalyzer.FindSuggestions | src/dependency_scanner/core/analysis/class_analyzer.py:71-76 | the cache gains the truthy lookups of exactly the given names |
| ClassAnalysis.ClassAnalyzer.ApplyTo | src/dependency_scanner/core/analysis/class_analyzer.py:81-83 | a result gains the cached suggestion of each of its missing names that has one, and keeps the rest |
| ClassAnalysis.ClassAnalyzer.ApplySuggestions | src/dependency_scanner/core/analysis/class_analyzer.py:78-83 | every result gains the cached suggestions for its own missing names |
| ClassAnalysis.ClassAnalyzer.Collect | src/dependency_scanner/core/analysis/class_analyzer.py:20-26 | the loop computes the union of the valid names and the union of the missing names |
| ClassAnalysis.ClassAnalyzer.LookUpNew | src/dependency_scanner/core/analysis/class_analyzer.py:29-32 | only names not processed before are looked up; afterwards all missing names are processed |
| ClassAnalysis.ClassAnalyzer.AnalyzeResults | src/dependency_scanner/core/analysis/class_analyzer.py:18-40 | returns the two unions; looks up only the new missing names against the valid ones; a call with nothing new caches nothing; every result gets its cached suggestions; the cache stays within the processed names |
| Validation.KnownClasses | src/dependency_scanner/core/validation/validator.py:55-60 | the non-empty equipment names the class data holds, the names `_validate_single_mission` accepts |
| Validation.UnknownClasses | src/dependency_scanner/core/validation/validator.py:55-62 | the non-empty equipment names the class data lacks, the names `_validate_single_mission` rejects |
| Validation.ClassesPartition | src/dependency_scanner/core/validation/validator.py:55-62 | known and unknown classes are disjoint and together make up the non-empty equipment names; a non-empty name is valid exactly when the database has it |
| Validation.ClassesNext | src/dependency_scanner/core/validation/validator.py:55-62 | one more name goes to exactly the set it belongs to, and an empty name to neither |
| Validation.FoundAssets | src/dependency_scanner/core/validation/validator.py:65-67 | the asset paths the cached-asset lookup reports |
| Validation.LostAssets | src/dependency_scanner/core/validation/validator.py:65-69 | the asset paths the cached-asset lookup does not report |
| Validation.AssetsPartition | src/dependency_scanner/core/validation/validator.py:65-69 | every asset path lands in exactly one of the found and the lost sets |
| Validation.AssetsNext | src/dependency_scanner/core/validation/validator.py:65-69 | one more path goes to the found set exactly when the lookup reports it |
| Validation.WrongParent | src/dependency_scanner/core/validation/validator.py:89-92 | a known class whose recorded details give a non-empty `parent` that differs from the database's parent |
| Validation.AcceptedClasses | src/dependency_scanner/core/validation/validator.py:85-97 | the names `_validate_classes` adds to `valid_classes`: non-empty, known, without a wrong parent |
| Validation.RejectedClasses | src/dependency_scanner/core/validation/validator.py:85-100 | the names `_validate_classes` adds to `missing_classes`: non-empty, and unknown or with a wrong parent |
| Validation.ParentCheck | src/dependency_scanner/core/validation/validator.py:85-100 | the accepted and the rejected names partition the non-empty equipment; a known class with a wrong recorded parent is rejected; without details the check is plain membership |
| Validation.ParentNext | src/dependency_scanner/core/validation/validator.py:89-100 | one more name goes to exactly the set `_validate_classes` puts it in |
| Validation.DependencyValidator.constructor | src/dependency_scanner/core/validation/validator.py:15-17 | the asset lookup and the worker count are those given |
| Validation.DependencyValidator.SortClasses | src/dependency_scanner/core/validation/validator.py:55-62 | the class loop computes the known and the unknown non-empty names |
| Validation.DependencyValidator.SortAssets | src/dependency_scanner/core/validation/validator.py:65-69 | the asset loop splits the paths by whether the lookup reports them |
| Validation.DependencyValidator.ValidateSingleMission | src/dependency_scanner/core/validation/validator.py:44-77 | a fresh result: equipment sorted against the class database, the scan's asset paths sorted by the lookup, empty property results |
| Validation.DependencyValidator.ValidateClasses | src/dependency_scanner/core/validation/validator.py:79-100 | returns the given sets grown by exactly the accepted names (to `valid`) and the rejected names (to `missing`); nothing is removed |
| Validation.DependencyValidator.ValidateMissions | src/dependency_scanner/core/validation/validator.py:19-42 | exactly the missions whose validation did not raise get a result, each that of `_validate_single_mission` |
| SuggestionGeneration.AvailableLower | src/dependency_scanner/core/analysis/suggestion_generator.py:32 | one key per distinct lower-cased available name, mapping back to an available spelling of it |
| SuggestionGeneration.LastSpellingWins | src/dependency_scanner/core/analysis/suggestion_generator.py:32 | among spellings with the same lower-case form, the one iterated last is kept |
| SuggestionGeneration.HasCategory | src/dependency_scanner/core/analysis/suggestion_generator.py:43 | `if result.category:`: a category was detected and is not empty |
| SuggestionGeneration.ReportOf | src/dependency_scanner/core/analysis/suggestion_generator.py:41-46 | the report the loop builds: the matches of each entry that has one, and the category of each of those whose category is set (shape in `ReportShape`) |
| SuggestionGeneration.ReportShape | src/dependency_scanner/core/analysis/suggestion_generator.py:41-46 | the suggestions are exactly the batch entries with matches, unchanged; a category is recorded exactly for those of them whose category is set |
| SuggestionGeneration.CollateNext | src/dependency_scanner/core/analysis/suggestion_generator.py:41-46 | one more batch entry is recorded exactly as the report requires |
| SuggestionGeneration.Collate | src/dependency_scanner/core/analysis/suggestion_generator.py:41-46 | the loop builds the report of the batch |
| SuggestionGeneration.BatchEntryCases | src/dependency_scanner/core/analysis/fuzzy_matcher.py:83-141 | every queried name has an entry, which is empty, an error entry, or the name's own lookup |
| SuggestionGeneration.LookupBounded | src/dependency_scanner/core/analysis/fuzzy_matcher.py:49-81 | a lookup returns at most `max_suggestions` matches, each a candidate |
| SuggestionGeneration.BatchEntryBounded | src/dependency_scanner/core/analysis/suggestion_generator.py:35-38 | every batch entry holds at most three matches, each a candidate |
| SuggestionGeneration.SuggestionGenerator.constructor | src/dependency_scanner/core/analysis/suggestion_generator.py:20-22 | the matcher has the default configuration and `min(32, (os.cpu_count() or 1) + 4)` workers, so 5 for an unknown or zero count and `min(32, n + 4)` for a count `n`; `max_workers` is ignored |
| SuggestionGeneration.SuggestionGenerator.GenerateSuggestions | src/dependency_scanner/core/analysis/suggestion_generator.py:24-52 | the report of one batch lookup of the missing names, with three suggestions, against the lower-cased available names |
| SuggestionGeneration.GeneratedReport | src/dependency_scanner/core/analysis/suggestion_generator.py:24-52 | only missing names get suggestions, one to three, each a lower-cased available name whose spelling `available_lower` finds; categories only for names with suggestions; up to 100 names, a name has suggestions exactly when its lookup is truthy |
| ResultDiffing.NewMissing | src/dependency_scanner/core/analysis/result_differ.py:26-27 | the new missing names are those of the compare result that the base result does not also miss |
| ResultDiffing.NewMissingSettled | src/dependency_scanner/core/analysis/result_differ.py:26-27 | differencing again against the same base changes nothing; a disjoint base removes nothing; a covering base removes everything |
| ResultDiffing.DifferenceOne | src/dependency_scanner/core/analysis/result_differ.py:25-35 | a fresh result: valid sets and property results copied, missing sets differenced |
| ResultDiffing.DifferenceResults | src/dependency_scanner/core/analysis/result_differ.py:13-37 | exactly the compare keys; a mission the base lacks keeps its own result object; any other gets a differenced fresh result |
| CoreScanning.NeedsAssetScanning | core/scanner.py:16-18 | true exactly when some task does not skip assets, so false for no tasks |
| CoreScanning.NeedsAssetScanningAppend | core/scanner.py:16-18 | the answer for two task lists joined is the disjunction of their answers |
| CoreScanning.InSomeCategory | core/scanner.py:137-141 | some category set holds the name |
| CoreScanning.KnownNames | core/scanner.py:135-141 | the equipment names some category holds, the names the loop adds to `valid_classes` |
| CoreScanning.UnknownNames | core/scanner.py:135-143 | the equipment names no category holds, the names the loop adds to `missing_classes` |
| CoreScanning.SearchCategories | core/scanner.py:136-141 | the inner loop finds the name exactly when some category holds it |
| CoreScanning.SortNext | core/scanner.py:134-143 | one more name goes to exactly the set it belongs to |
| CoreScanning.ValidateMission | core/scanner.py:116-150 | valid classes are the equipment names some category holds, missing classes the rest, and both asset sets are empty |
| CoreScanning.ValidationPartition | core/scanner.py:134-143 | valid and missing classes partition the equipment, and a name is valid exactly when some category holds it |
| MissionScanning.HasAssetSuffix | src/mission_dependency_scanner/__init__.py:71 | `ref.endswith(('.paa', '.p3d', '.wss'))` |
| MissionScanning.Classify | src/mission_dependency_scanner/__init__.py:58-74 | the branch a reference takes: a valid asset when the asset database holds it, else a valid class when some category holds it, else a missing asset when it has an asset suffix, else a missing class |
| MissionScanning.Classified | src/mission_dependency_scanner/__init__.py:55-74 | the scan result in which each reference lies in the set of its kind (properties in `ClassificationRules`) |
| MissionScanning.ClassifiedNext | src/mission_dependency_scanner/__init__.py:56-74 | one more reference is recorded in the set of its kind |
| MissionScanning.References | src/mission_dependency_scanner/__init__.py:55-56 | the references of all files: each file's equipment and nothing else |
| MissionScanning.ClassificationRules | src/mission_dependency_scanner/__init__.py:55-74 | each reference lands in exactly one of the four sets; the asset database wins; an unknown reference is a missing asset exactly when it ends in `.paa`, `.p3d` or `.wss`; no unknown references |
| MissionScanning.DependencyScanner.constructor | src/mission_dependency_scanner/__init__.py:21-26 | both databases start empty |
| MissionScanning.DependencyScanner.ClassifyFile | src/mission_dependency_scanner/__init__.py:56-74 | the loop over one file's equipment classifies each of its references |
| MissionScanning.DependencyScanner.ValidateMission | src/mission_dependency_scanner/__init__.py:43-82 | the result is the classification of all the files' references, and the databases are not changed |
| CacheKeys.NormalizePath | src/dependency_scanner/core/utils/cache.py:57-59 | the length is kept, each backslash becomes `/`, every other character stays in place, and no backslash remains |
| CacheKeys.NormalizePathIdempotent | src/dependency_scanner/core/utils/cache.py:57-59 | normalising a normalised path changes nothing |
| CacheKeys.NormalizePathFixes | src/dependency_scanner/core/utils/cache.py:57-59 | a path without backslashes is already normalised |
| CacheKeys.GetCacheKey | src/dependency_scanner/core/utils/cache.py:36-38 | the key is `game_data + "_" + task`: the game data, an underscore, then the task name |
| CacheKeys.CacheKeyInjective | src/dependency_scanner/core/utils/cache.py:36-38 | when the game data has no `_`, the key determines both the game data and its task |
| CacheKeys.CacheKeyCollision | src/dependency_scanner/core/utils/cache.py:36-38 | with `_` in the game data, two different pairs share a key: `("a_b", "c")` and `("a", "b_c")` |

## Left out

- Threads: the thread pools of `find_similar_classes_batch` and `validate_missions` run sequentially: the chunks in list order, the missions in an unspecified order (`ValidateMissions` picks each next key with `:|`). Each entry is a function of its own inputs, so the completion order does not change the contents of the resulting dictionary. It does change the key order of the dictionary `validate_missions` builds, which follows completion order; the model's maps have no key order, so that order is not captured.
- ClassAnalysis.ClassAnalyzer.ApplyTo: as written, `result.class_suggestions[...] = ...` (`class_analyzer.py:83`) raises `AttributeError`, because the declared `ValidationResult` (`types.py:86-93`) has no such attribute. So the first cached suggestion that applies ends `_apply_suggestions_to_results` and `analyze_results` with an exception. The model, with `ApplySuggestions` and `AnalyzeResults`, gives the intended copy into a `classSuggestions` field instead.
- Validation.DependencyValidator.ValidateClasses: the source adds to the caller's own set objects in place. The model takes `valid` and `missing` as values and returns grown copies, so it does not capture the in-place update or aliasing, for example the same set object passed as both arguments.
- Exceptions: an exception caught by the source is an input. `Faults` names the chunks and the single lookups that raise; the `failed` set of `ValidateMissions` names the missions whose validation raises. An exception the source does not catch, on the sequential batch path for example, is not modelled.
- `lru_cache` on `normalize_class_name`: normalisation is a pure function, and the cache does not change its results.
- `SequenceMatcher.ratio` from difflib is an abstract function parameter. Only its bounds, [0, 1], are assumed, and only where a contract needs them.
- Float rounding: scores are exact reals. Python floats can flip the `> 0.8` test of `_find_direct_matches`: three 0.8 contributions sum to slightly more than 2.4 in Python, so three fully aliased tokens pass there but not over the reals.
- Unicode: `lower()` and `\s` are modelled on ASCII (plus the four ASCII separators Python counts as whitespace). The `$` of `_\d+$` matching before a trailing newline is not modelled.
- Set iteration order: Python's hash order of candidate, missing and valid sets is a sequence parameter. `_filter_candidates` returns a set, which the model keeps as a list in candidate order; scoring then iterates that list.
- `os.cpu_count()` is a parameter of the constructors.
- The configuration fields `base_weight`, `substitution_weight`, `quick_match_threshold`, `cache_size` and `high_confidence_threshold` are carried but never read, as in the source; the weights 0.7 and 0.3 and the early-exit bound 0.9 are literals there and here.
- `get_category_match` and `_find_similar_classes_sequential` are one-line wrappers: the first is `CategoryDetection.DetectCategory` itself, the second the matches of `FuzzyMatching.FindSimilarSpec`.
- `ClassData` is reduced to its `parent`. A `ClassData` object is assumed truthy, so `class_data.get(name)` succeeds exactly when the name is a key.
- The asset API is reduced to `get_cached_asset`, as a predicate on the path. `str(asset_path)` is the identity on the string paths modelled here.
- `ScanTypes.Sanitized`: only string elements are modelled, so `{str(x) for x in s if x}` becomes "remove the empty string"; non-string elements are out of scope.
- `PropertyResults` and the class details are opaque maps that are only copied or read.
- `_validate_assets` calls `asset_api.get_asset` and stores `asset.path`, an object from a foreign API that is not part of this model.
- `build_asset_database` and `build_class_database` only copy the results of foreign APIs (`AssetAPI`, `ClassHierarchyAPI`) into the two databases; the scan of the mission directory is replaced by its per-file equipment sets.
- The stand-alone `validate_mission` takes `mod_api` and never uses it; the model drops the parameter.
- `write_class_summary`, `write_suggestion_report`, logging, file I/O, the md5 folder hash and `CacheManager` are file and logging work.
- The class analyzer holds its lookup, the default three-suggestion `find_similar_classes` of its matcher, as a function value that the constructor sets.
