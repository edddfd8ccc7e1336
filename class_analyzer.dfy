/**
 * `ClassAnalyzer`: a run-wide cache that looks each missing class name up
 * once, keeps the lookups that found something, and copies them into the
 * validation result of every mission that misses the name.
 */
module ClassAnalysis {
  import opened Text
  import opened MatcherState
  import opened FuzzyResult
  import opened FuzzyMatching
  import opened ScanTypes

  /** The union of the valid class names of `results`. */
  function AllValid(results: seq<ValidationResult>): (r: set<string>)
    ensures forall k :: 0 <= k < |results| ==> results[k].validClasses <= r
    ensures forall c :: c in r ==> exists k :: 0 <= k < |results| && c in results[k].validClasses
  {
    if results == [] then {}
    else
      var front := results[..|results| - 1];
      var r := AllValid(front) + results[|results| - 1].validClasses;
      assert forall k :: 0 <= k < |front| ==> front[k] == results[k];
      r
  }

  /** The union of the missing class names of `results`. */
  function AllMissing(results: seq<ValidationResult>): (r: set<string>)
    ensures forall k :: 0 <= k < |results| ==> results[k].missingClasses <= r
    ensures forall c :: c in r ==> exists k :: 0 <= k < |results| && c in results[k].missingClasses
  {
    if results == [] then {}
    else
      var front := results[..|results| - 1];
      var r := AllMissing(front) + results[|results| - 1].missingClasses;
      assert forall k :: 0 <= k < |front| ==> front[k] == results[k];
      r
  }

  /** The lookups among `names` that found something. */
  ghost function Kept(names: set<string>, lookup: string -> FuzzyMatchResult): map<string, FuzzyMatchResult> {
    map c | c in names && IsTruthy(lookup(c)) :: lookup(c)
  }

  /** Only names looked up are kept, and each kept lookup found something. */
  lemma KeptOnlyTruthy(names: set<string>, lookup: string -> FuzzyMatchResult)
    ensures Kept(names, lookup).Keys <= names
    ensures forall c :: c in Kept(names, lookup) ==> IsTruthy(Kept(names, lookup)[c])
  {
  }

  /** Looking one more name up caches its result exactly when the result has a match. */
  lemma KeptAdd(cache: map<string, FuzzyMatchResult>, names: set<string>, c: string,
                lookup: string -> FuzzyMatchResult)
    ensures IsTruthy(lookup(c)) ==>
              (cache + Kept(names, lookup))[c := lookup(c)] == cache + Kept(names + {c}, lookup)
    ensures !IsTruthy(lookup(c)) ==> cache + Kept(names, lookup) == cache + Kept(names + {c}, lookup)
  {
  }

  /** `cache` after looking `name` up: the lookup is kept when it found something. */
  ghost function Cache(cache: map<string, FuzzyMatchResult>, name: string, lookup: string -> FuzzyMatchResult)
    : map<string, FuzzyMatchResult>
  {
    if IsTruthy(lookup(name)) then cache[name := lookup(name)] else cache
  }

  /** The cached suggestions for the names of `missing`. */
  function Applied(missing: set<string>, cache: map<string, FuzzyMatchResult>): (r: map<string, FuzzyMatchResult>)
    ensures r.Keys == missing * cache.Keys
    ensures forall c :: c in r ==> r[c] == cache[c]
  {
    map c | c in missing && c in cache :: cache[c]
  }

  /** Applying the cache for one more name adds that name's entry, if the cache has one. */
  lemma AppliedAdd(base: map<string, FuzzyMatchResult>, names: set<string>, c: string,
                   cache: map<string, FuzzyMatchResult>)
    ensures c in cache ==> (base + Applied(names, cache))[c := cache[c]] == base + Applied(names + {c}, cache)
    ensures c !in cache ==> base + Applied(names, cache) == base + Applied(names + {c}, cache)
  {
  }

  /** Applying the same cached suggestions twice changes nothing the second time. */
  lemma AppliedTwice(base: map<string, FuzzyMatchResult>, names: set<string>, cache: map<string, FuzzyMatchResult>)
    ensures (base + Applied(names, cache)) + Applied(names, cache) == base + Applied(names, cache)
  {
  }

  class ClassAnalyzer {
    const matcher: Matcher
    const ratio: (string, string) -> real
    /** `fuzzy_matcher.find_similar_classes(name, candidates)` with the default three suggestions. */
    const find: (string, seq<string>) -> FuzzyMatchResult
    var processed: set<string>
    var suggestions: map<string, FuzzyMatchResult>

    /** Only looked-up names are cached, and only lookups that found something. */
    ghost predicate Valid()
      reads this
    {
      suggestions.Keys <= processed && forall c :: c in suggestions ==> IsTruthy(suggestions[c])
    }

    /**
     * `ClassAnalyzer(fuzzy_matcher)`: a missing matcher is replaced by a
     * default one; `cpuCount` is what `os.cpu_count()` reports.
     */
    constructor (fuzzyMatcher: Option<Matcher>, cpuCount: Option<nat>, ratio: (string, string) -> real)
      ensures Valid() && processed == {} && suggestions == map[]
      ensures fuzzyMatcher.Some? ==> matcher == fuzzyMatcher.value
      ensures fuzzyMatcher.None? ==> MatcherState.Valid(matcher) && matcher.config == FuzzyConfig.Default()
      ensures this.ratio == ratio
      ensures forall name, candidates :: find(name, candidates) == FindSimilarSpec(matcher, ratio, name, candidates, 3)
    {
      var m: Matcher;
      if fuzzyMatcher.Some? {
        m := fuzzyMatcher.value;
      } else {
        m := NewMatcher(None, cpuCount);
      }
      matcher := m;
      this.ratio := ratio;
      find := (name, candidates) => FindSimilarSpec(m, ratio, name, candidates, 3);
      processed := {};
      suggestions := map[];
    }

    /** The lookup the analyzer makes for one missing name, against the valid names in `validOrder`. */
    ghost function Lookup(validOrder: seq<string>): string -> FuzzyMatchResult
    {
      name => find(name, validOrder)
    }

    /** One iteration of `_find_suggestions_for_classes`: look `name` up and cache what it finds. */
    method CacheOne(name: string, validOrder: seq<string>)
      modifies this`suggestions
      ensures suggestions == Cache(old(suggestions), name, Lookup(validOrder))
    {
      var found := find(name, validOrder);
      if IsTruthy(found) {
        suggestions := suggestions[name := found];
      }
    }

    /**
     * `_find_suggestions_for_classes`: every name of `missing` is looked
     * up, and the lookups with a match are cached.
     */
    method FindSuggestions(missing: set<string>, validOrder: seq<string>)
      modifies this`suggestions
      ensures suggestions == old(suggestions) + Kept(missing, Lookup(validOrder))
    {
      ghost var base := suggestions;
      ghost var done: set<string> := {};
      var pending := missing;
      while pending != {}
        invariant done + pending == missing && done !! pending
        invariant suggestions == base + Kept(done, Lookup(validOrder))
        decreases |pending|
      {
        var name :| name in pending;
        KeptAdd(base, done, name, Lookup(validOrder));
        CacheOne(name, validOrder);
        done := done + {name};
        pending := pending - {name};
      }
    }

    /** The inner loop of `_apply_suggestions_to_results`, for one result. */
    method ApplyTo(result: ValidationResult)
      modifies result
      ensures result.classSuggestions == old(result.classSuggestions) + Applied(result.missingClasses, suggestions)
    {
      ghost var start := result.classSuggestions;
      ghost var done: set<string> := {};
      var pending := result.missingClasses;
      while pending != {}
        invariant done + pending == result.missingClasses && done !! pending
        invariant result.classSuggestions == start + Applied(done, suggestions)
        decreases |pending|
      {
        var name :| name in pending;
        AppliedAdd(start, done, name, suggestions);
        if name in suggestions {
          result.classSuggestions := result.classSuggestions[name := suggestions[name]];
        }
        done := done + {name};
        pending := pending - {name};
      }
    }

    /**
     * `_apply_suggestions_to_results`: every result gains the cached
     * suggestion of each of its missing names that has one.
     */
    method ApplySuggestions(results: seq<ValidationResult>)
      modifies set r | r in results
      ensures forall r :: r in results ==> r.classSuggestions == old(r.classSuggestions) + Applied(r.missingClasses, suggestions)
    {
      for i := 0 to |results|
        invariant forall r :: r in results[..i] ==>
                    r.classSuggestions == old(r.classSuggestions) + Applied(r.missingClasses, suggestions)
        invariant forall r :: r in results && r !in results[..i] ==> r.classSuggestions == old(r.classSuggestions)
      {
        var result := results[i];
        if result in results[..i] {
          AppliedTwice(old(result.classSuggestions), result.missingClasses, suggestions);
        }
        ApplyTo(result);
        assert results[..i + 1] == results[..i] + [result];
      }
      assert results[..|results|] == results;
    }

    /** The two unions `analyze_results` starts from. */
    static method Collect(results: seq<ValidationResult>) returns (valid: set<string>, missing: set<string>)
      ensures valid == AllValid(results) && missing == AllMissing(results)
    {
      valid := {};
      missing := {};
      for i := 0 to |results|
        invariant valid == AllValid(results[..i]) && missing == AllMissing(results[..i])
      {
        assert results[..i + 1][..i] == results[..i];
        valid := valid + results[i].validClasses;
        missing := missing + results[i].missingClasses;
      }
      assert results[..|results|] == results;
    }

    /**
     * The middle of `analyze_results`: the names of `missing` not looked up
     * before are looked up and marked processed.
     */
    method LookUpNew(missing: set<string>, validOrder: seq<string>)
      requires Valid()
      modifies this`processed, this`suggestions
      ensures Valid()
      ensures processed == old(processed) + missing
      ensures suggestions == old(suggestions) + Kept(missing - old(processed), Lookup(validOrder))
    {
      var unprocessed := missing - processed;
      if unprocessed != {} {
        FindSuggestions(unprocessed, validOrder);
        KeptOnlyTruthy(unprocessed, Lookup(validOrder));
        processed := processed + unprocessed;
      } else {
        assert forall c :: c in missing ==> c in processed by {
          forall c | c in missing ensures c in processed {
            assert c !in unprocessed;
          }
        }
        assert processed + missing == processed;
        assert Kept(unprocessed, Lookup(validOrder)) == map[];
        assert suggestions + map[] == suggestions;
      }
    }

    /**
     * `analyze_results`: the unions of the valid and of the missing names;
     * the names not looked up before are looked up against the valid ones
     * (enumerated in `validOrder`) and marked processed; then every result
     * gains the cached suggestions for its missing names.
     */
    method AnalyzeResults(results: seq<ValidationResult>, validOrder: seq<string>)
      returns (valid: set<string>, missing: set<string>)
      requires Valid()
      requires (set c | c in validOrder) == AllValid(results)
      modifies this, set r | r in results
      ensures valid == AllValid(results) && missing == AllMissing(results)
      ensures Valid()
      ensures processed == old(processed) + missing
      ensures suggestions == old(suggestions) + Kept(missing - old(processed), Lookup(validOrder))
      ensures missing <= old(processed) ==> suggestions == old(suggestions)
      ensures forall r :: r in results ==> r.classSuggestions == old(r.classSuggestions) + Applied(r.missingClasses, suggestions)
    {
      valid, missing := Collect(results);
      LookUpNew(missing, validOrder);
      ApplySuggestions(results);
    }
  }
}
