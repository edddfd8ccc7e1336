/**
 * `find_similar_classes_batch` and `_process_batch_chunk`. The thread pool
 * is modelled sequentially, chunk by chunk in list order: each query's
 * entry is a function of the query alone, so the order in which chunks
 * complete does not change the merged dictionary. Which chunks raise, and
 * which single lookups raise inside a chunk, are parameters.
 */
module FuzzyBatch {
  import opened Text
  import opened NameNormalizer
  import opened MatcherState
  import opened FuzzyResult
  import opened FuzzyMatching

  /** The entry pre-filled for every query: no matches, the normalised form, the defaults otherwise. */
  function EmptyResult(query: string): (r: FuzzyMatchResult)
    ensures r.original == query && r.matches == [] && !IsTruthy(r)
    ensures r.normalizedForm == Normalize(query) && r.category == None && r.matchType == Fuzzy
  {
    FuzzyMatchResult(query, [], None, Normalize(query), Fuzzy)
  }

  /** The entry a chunk records for a query whose lookup raised: its normalised form is the raw query. */
  function ErrorResult(query: string): (r: FuzzyMatchResult)
    ensures r.original == query && r.matches == [] && !IsTruthy(r)
    ensures r.normalizedForm == query && r.category == None && r.matchType == Fuzzy
  {
    FuzzyMatchResult(query, [], None, query, Fuzzy)
  }

  /** The faults of one run of the thread pool. */
  datatype Faults = Faults(failedChunks: set<nat>, failedQueries: set<string>)

  /** What a chunk stores for `query`. */
  function ChunkEntry(m: Matcher, ratio: (string, string) -> real, query: string, candidates: seq<string>,
                      maxSuggestions: int, failedQueries: set<string>): FuzzyMatchResult
  {
    if query in failedQueries then ErrorResult(query)
    else FindSimilarSpec(m, ratio, query, candidates, maxSuggestions)
  }

  /** `ChunkEntry` as a function of the query alone. */
  ghost function ChunkEntries(m: Matcher, ratio: (string, string) -> real, candidates: seq<string>,
                              maxSuggestions: int, failedQueries: set<string>): string -> FuzzyMatchResult
  {
    q => ChunkEntry(m, ratio, q, candidates, maxSuggestions, failedQueries)
  }

  /** `FindSimilarSpec` as a function of the query alone. */
  ghost function Lookups(m: Matcher, ratio: (string, string) -> real, candidates: seq<string>,
                         maxSuggestions: int): string -> FuzzyMatchResult
  {
    q => FindSimilarSpec(m, ratio, q, candidates, maxSuggestions)
  }

  /** The dictionary giving each of `keys` the entry `f(q)`. */
  ghost function Filled<V>(keys: seq<string>, f: string -> V): map<string, V> {
    map q | q in keys :: f(q)
  }

  /** Filling one more key. */
  lemma FilledStep<V>(keys: seq<string>, i: int, f: string -> V)
    requires 0 <= i < |keys|
    ensures Filled(keys[..i + 1], f) == Filled(keys[..i], f)[keys[i] := f(keys[i])]
  {
    assert keys[..i + 1] == keys[..i] + [keys[i]];
  }

  /**
   * `_process_batch_chunk`: every query of the chunk gets an entry,
   * matched or not: the lookup's result, or the error entry when the
   * lookup raised.
   */
  method ProcessBatchChunk(m: Matcher, ratio: (string, string) -> real, chunk: seq<string>, candidates: seq<string>,
                           maxSuggestions: int, failedQueries: set<string>)
    returns (results: map<string, FuzzyMatchResult>)
    ensures results == Filled(chunk, ChunkEntries(m, ratio, candidates, maxSuggestions, failedQueries))
  {
    ghost var entry := ChunkEntries(m, ratio, candidates, maxSuggestions, failedQueries);
    results := map[];
    var i := 0;
    while i < |chunk|
      invariant 0 <= i <= |chunk|
      invariant results == Filled(chunk[..i], entry)
    {
      FilledStep(chunk, i, entry);
      var query := chunk[i];
      if query in failedQueries {
        results := results[query := ErrorResult(query)];
      } else {
        var found := FindSimilarClasses(m, ratio, query, candidates, maxSuggestions);
        results := results[query := found];
      }
      i := i + 1;
    }
    assert chunk[..|chunk|] == chunk;
  }

  /** `max(100, len(queries) // max_workers)`. */
  function ChunkSize(n: nat, workers: int): (size: nat)
    requires workers >= 1
    ensures size >= 100
  {
    if n / workers > 100 then n / workers else 100
  }

  /** `[queries[i:i + size] for i in range(0, len(queries), size)]`. */
  function Chunks<T>(queries: seq<T>, size: nat): seq<seq<T>>
    requires size >= 1
    decreases |queries|
  {
    if queries == [] then []
    else if |queries| <= size then [queries]
    else [queries[..size]] + Chunks(queries[size..], size)
  }

  function Flatten<T>(ss: seq<seq<T>>): seq<T> {
    if ss == [] then [] else ss[0] + Flatten(ss[1..])
  }

  /**
   * The chunks partition the query list in order: glued together they
   * give the list back, none is empty, none is longer than `size`, and all
   * but the last have exactly `size` queries.
   */
  lemma {:induction false} ChunksPartition<T>(queries: seq<T>, size: nat)
    requires size >= 1
    ensures Flatten(Chunks(queries, size)) == queries
    ensures forall j :: 0 <= j < |Chunks(queries, size)| ==> 1 <= |Chunks(queries, size)[j]| <= size
    ensures forall j :: 0 <= j < |Chunks(queries, size)| - 1 ==> |Chunks(queries, size)[j]| == size
    decreases |queries|
  {
    if |queries| > size {
      ChunksPartition(queries[size..], size);
      assert queries[..size] + queries[size..] == queries;
      var c := Chunks(queries, size);
      assert c[1..] == Chunks(queries[size..], size);
    }
  }

  /** Every query lies in some chunk, and every chunk holds only queries. */
  lemma {:induction false} ChunksCover<T>(queries: seq<T>, size: nat)
    requires size >= 1
    ensures forall q :: q in queries ==> exists j :: 0 <= j < |Chunks(queries, size)| && q in Chunks(queries, size)[j]
    ensures forall j :: 0 <= j < |Chunks(queries, size)| ==> forall q :: q in Chunks(queries, size)[j] ==> q in queries
    decreases |queries|
  {
    if |queries| > size {
      ChunksCover(queries[size..], size);
      var c := Chunks(queries, size);
      assert c[1..] == Chunks(queries[size..], size);
      assert queries == queries[..size] + queries[size..];
      forall q | q in queries ensures exists j :: 0 <= j < |c| && q in c[j] {
        if q in queries[..size] {
          assert q in c[0];
        } else {
          assert q in queries[size..];
          var j :| 0 <= j < |c[1..]| && q in c[1..][j];
          assert q in c[j + 1];
        }
      }
      forall q, j | 0 <= j < |c| && q in c[j] ensures q in queries {
        if j > 0 {
          assert q in c[1..][j - 1];
        }
      }
    } else if queries != [] {
      assert Chunks(queries, size) == [queries];
      forall q | q in queries
        ensures exists j :: 0 <= j < |Chunks(queries, size)| && q in Chunks(queries, size)[j]
      {
        assert 0 < |Chunks(queries, size)| && q in Chunks(queries, size)[0];
      }
    }
  }

  /** True when some chunk before `upTo` that did not fail holds `q`. */
  ghost predicate Covered(chunks: seq<seq<string>>, failedChunks: set<nat>, upTo: int, q: string) {
    exists j :: 0 <= j < upTo && j < |chunks| && j !in failedChunks && q in chunks[j]
  }

  /**
   * The dictionary after the chunks before `upTo` have been merged, in
   * order, over the pre-filled one: a query some merged chunk holds has
   * that chunk's entry `hit(q)`, any other query its pre-filled `miss(q)`.
   */
  ghost function Merged<V>(queries: seq<string>, chunks: seq<seq<string>>, failedChunks: set<nat>, upTo: int,
                           hit: string -> V, miss: string -> V): map<string, V>
  {
    map q | q in queries :: if Covered(chunks, failedChunks, upTo, q) then hit(q) else miss(q)
  }

  /** Before any chunk is merged every entry is the pre-filled one. */
  lemma MergedStart<V>(queries: seq<string>, chunks: seq<seq<string>>, failedChunks: set<nat>,
                       hit: string -> V, miss: string -> V)
    ensures Merged(queries, chunks, failedChunks, 0, hit, miss) == Filled(queries, miss)
  {
  }

  /** Merging a failed chunk changes nothing. */
  lemma MergeFailedChunk<V>(queries: seq<string>, chunks: seq<seq<string>>, failedChunks: set<nat>, j: int,
                            hit: string -> V, miss: string -> V)
    requires 0 <= j < |chunks| && j in failedChunks
    ensures Merged(queries, chunks, failedChunks, j + 1, hit, miss) == Merged(queries, chunks, failedChunks, j, hit, miss)
  {
    var before := Merged(queries, chunks, failedChunks, j, hit, miss);
    var after := Merged(queries, chunks, failedChunks, j + 1, hit, miss);
    forall q | q in queries ensures after[q] == before[q] {
      assert Covered(chunks, failedChunks, j + 1, q) <==> Covered(chunks, failedChunks, j, q);
    }
  }

  /** Merging a chunk that did not fail overwrites the entries of its own queries. */
  lemma MergeChunk<V>(queries: seq<string>, chunks: seq<seq<string>>, failedChunks: set<nat>, j: int,
                      hit: string -> V, miss: string -> V)
    requires 0 <= j < |chunks| && j !in failedChunks
    requires forall q :: q in chunks[j] ==> q in queries
    ensures Merged(queries, chunks, failedChunks, j + 1, hit, miss) ==
            Merged(queries, chunks, failedChunks, j, hit, miss) + Filled(chunks[j], hit)
  {
    var before := Merged(queries, chunks, failedChunks, j, hit, miss);
    var after := Merged(queries, chunks, failedChunks, j + 1, hit, miss);
    var chunkMap := Filled(chunks[j], hit);
    forall q | q in queries ensures after[q] == (before + chunkMap)[q] {
      if q in chunks[j] {
        assert Covered(chunks, failedChunks, j + 1, q);
      } else {
        assert Covered(chunks, failedChunks, j + 1, q) <==> Covered(chunks, failedChunks, j, q);
      }
    }
    assert after.Keys == (before + chunkMap).Keys;
  }

  /** The dictionary after the first `upTo` queries have been looked up one by one over the pre-filled one. */
  ghost function LookedUp<V>(queries: seq<string>, upTo: int, hit: string -> V, miss: string -> V): map<string, V>
    requires 0 <= upTo <= |queries|
  {
    map q | q in queries :: if q in queries[..upTo] then hit(q) else miss(q)
  }

  /** Before any lookup every entry is the pre-filled one; after the last, every entry is looked up. */
  lemma LookedUpEnds<V>(queries: seq<string>, hit: string -> V, miss: string -> V)
    ensures LookedUp(queries, 0, hit, miss) == Filled(queries, miss)
    ensures LookedUp(queries, |queries|, hit, miss) == Filled(queries, hit)
  {
    assert queries[..|queries|] == queries;
  }

  /** Looking up one more query overwrites that query's entry. */
  lemma LookupStep<V>(queries: seq<string>, k: int, hit: string -> V, miss: string -> V)
    requires 0 <= k < |queries|
    ensures LookedUp(queries, k + 1, hit, miss) == LookedUp(queries, k, hit, miss)[queries[k] := hit(queries[k])]
  {
    assert queries[..k + 1] == queries[..k] + [queries[k]];
  }

  /** The dictionary `find_similar_classes_batch` returns. */
  ghost function BatchSpec(m: Matcher, ratio: (string, string) -> real, queries: seq<string>, candidates: seq<string>,
                           maxSuggestions: int, faults: Faults): map<string, FuzzyMatchResult>
    requires m.maxWorkers >= 1
  {
    if |queries| <= 100 then
      Filled(queries, Lookups(m, ratio, candidates, maxSuggestions))
    else
      var chunks := Chunks(queries, ChunkSize(|queries|, m.maxWorkers));
      Merged(queries, chunks, faults.failedChunks, |chunks|,
             ChunkEntries(m, ratio, candidates, maxSuggestions, faults.failedQueries), EmptyResult)
  }

  /** The pre-fill loop of `find_similar_classes_batch`: an empty entry per query. */
  method Prefill(queries: seq<string>) returns (results: map<string, FuzzyMatchResult>)
    ensures results == Filled(queries, EmptyResult)
  {
    results := map[];
    var i := 0;
    while i < |queries|
      invariant 0 <= i <= |queries|
      invariant results == Filled(queries[..i], EmptyResult)
    {
      FilledStep(queries, i, EmptyResult);
      results := results[queries[i] := EmptyResult(queries[i])];
      i := i + 1;
    }
    assert queries[..|queries|] == queries;
  }

  /**
   * `results.update(chunk_results)` for each chunk in order, skipping the
   * chunks that failed, starting from `base`.
   */
  ghost function MergeFold<V>(base: map<string, V>, chunks: seq<seq<string>>, failedChunks: set<nat>, upTo: int,
                              hit: string -> V): map<string, V>
    requires 0 <= upTo <= |chunks|
  {
    if upTo == 0 then base
    else if upTo - 1 in failedChunks then MergeFold(base, chunks, failedChunks, upTo - 1, hit)
    else MergeFold(base, chunks, failedChunks, upTo - 1, hit) + Filled(chunks[upTo - 1], hit)
  }

  /**
   * Merging the chunks in order over the pre-filled dictionary gives each
   * query the entry of a chunk that holds it and did not fail, and leaves
   * every other query pre-filled.
   */
  lemma {:induction false} MergeFoldIsMerged<V>(queries: seq<string>, chunks: seq<seq<string>>, failedChunks: set<nat>,
                                                upTo: int, hit: string -> V, miss: string -> V)
    requires 0 <= upTo <= |chunks|
    requires forall j :: 0 <= j < |chunks| ==> forall q :: q in chunks[j] ==> q in queries
    ensures MergeFold(Filled(queries, miss), chunks, failedChunks, upTo, hit) ==
            Merged(queries, chunks, failedChunks, upTo, hit, miss)
  {
    if upTo == 0 {
      MergedStart(queries, chunks, failedChunks, hit, miss);
    } else {
      MergeFoldIsMerged(queries, chunks, failedChunks, upTo - 1, hit, miss);
      if upTo - 1 in failedChunks {
        MergeFailedChunk(queries, chunks, failedChunks, upTo - 1, hit, miss);
      } else {
        MergeChunk(queries, chunks, failedChunks, upTo - 1, hit, miss);
      }
    }
  }

  /**
   * The thread-pool path: each chunk that did not fail merges its
   * dictionary into `results`, in chunk order.
   */
  method MergeChunks(m: Matcher, ratio: (string, string) -> real, chunks: seq<seq<string>>,
                     candidates: seq<string>, maxSuggestions: int, faults: Faults,
                     prefilled: map<string, FuzzyMatchResult>)
    returns (results: map<string, FuzzyMatchResult>)
    ensures results == MergeFold(prefilled, chunks, faults.failedChunks, |chunks|,
                                 ChunkEntries(m, ratio, candidates, maxSuggestions, faults.failedQueries))
  {
    ghost var hit := ChunkEntries(m, ratio, candidates, maxSuggestions, faults.failedQueries);
    results := prefilled;
    var j := 0;
    while j < |chunks|
      invariant 0 <= j <= |chunks|
      invariant results == MergeFold(prefilled, chunks, faults.failedChunks, j, hit)
    {
      if j !in faults.failedChunks {
        var chunkResults := ProcessBatchChunk(m, ratio, chunks[j], candidates, maxSuggestions, faults.failedQueries);
        results := results + chunkResults;
      }
      j := j + 1;
    }
  }

  /** The sequential path: each query in turn overwrites its entry with its lookup. */
  method LookUpEach(m: Matcher, ratio: (string, string) -> real, queries: seq<string>,
                    candidates: seq<string>, maxSuggestions: int, prefilled: map<string, FuzzyMatchResult>)
    returns (results: map<string, FuzzyMatchResult>)
    requires prefilled == Filled(queries, EmptyResult)
    ensures results == Filled(queries, Lookups(m, ratio, candidates, maxSuggestions))
  {
    ghost var hit := Lookups(m, ratio, candidates, maxSuggestions);
    LookedUpEnds(queries, hit, EmptyResult);
    results := prefilled;
    var k := 0;
    while k < |queries|
      invariant 0 <= k <= |queries|
      invariant results == LookedUp(queries, k, hit, EmptyResult)
    {
      LookupStep(queries, k, hit, EmptyResult);
      var found := FindSimilarClasses(m, ratio, queries[k], candidates, maxSuggestions);
      results := results[queries[k] := found];
      k := k + 1;
    }
  }

  /** `find_similar_classes_batch`: pre-fill, then the thread pool above 100 queries, else one by one. */
  method FindSimilarClassesBatch(m: Matcher, ratio: (string, string) -> real, queries: seq<string>,
                                 candidates: seq<string>, maxSuggestions: int, faults: Faults)
    returns (results: map<string, FuzzyMatchResult>)
    requires m.maxWorkers >= 1
    ensures results == BatchSpec(m, ratio, queries, candidates, maxSuggestions, faults)
  {
    results := Prefill(queries);
    if |queries| > 100 {
      var size := ChunkSize(|queries|, m.maxWorkers);
      var chunks := Chunks(queries, size);
      ChunksCover(queries, size);
      results := MergeChunks(m, ratio, chunks, candidates, maxSuggestions, faults, results);
      MergeFoldIsMerged(queries, chunks, faults.failedChunks, |chunks|,
                        ChunkEntries(m, ratio, candidates, maxSuggestions, faults.failedQueries), EmptyResult);
    } else {
      results := LookUpEach(m, ratio, queries, candidates, maxSuggestions, results);
    }
  }

  /**
   * The batch has one entry per distinct query. Up to 100 queries, each
   * entry is the single lookup's result; above that, each entry is the
   * lookup's result when no chunk failed and no lookup raised, and a query
   * all of whose chunks failed keeps its pre-filled empty entry.
   */
  lemma BatchProperties(m: Matcher, ratio: (string, string) -> real, queries: seq<string>, candidates: seq<string>,
                        maxSuggestions: int, faults: Faults)
    requires m.maxWorkers >= 1
    ensures BatchSpec(m, ratio, queries, candidates, maxSuggestions, faults).Keys == set q | q in queries
    ensures |queries| <= 100 || (faults.failedChunks == {} && faults.failedQueries == {}) ==>
              forall q :: q in queries ==>
                BatchSpec(m, ratio, queries, candidates, maxSuggestions, faults)[q] ==
                FindSimilarSpec(m, ratio, q, candidates, maxSuggestions)
    ensures |queries| > 100 ==>
              var chunks := Chunks(queries, ChunkSize(|queries|, m.maxWorkers));
              forall q :: q in queries && (forall j :: 0 <= j < |chunks| && q in chunks[j] ==> j in faults.failedChunks) ==>
                BatchSpec(m, ratio, queries, candidates, maxSuggestions, faults)[q] == EmptyResult(q)
  {
    if |queries| > 100 {
      var size := ChunkSize(|queries|, m.maxWorkers);
      var chunks := Chunks(queries, size);
      ChunksCover(queries, size);
      if faults.failedChunks == {} {
        forall q | q in queries ensures Covered(chunks, faults.failedChunks, |chunks|, q) {
          var j :| 0 <= j < |chunks| && q in chunks[j];
        }
      }
      forall q | q in queries && (forall j :: 0 <= j < |chunks| && q in chunks[j] ==> j in faults.failedChunks)
        ensures !Covered(chunks, faults.failedChunks, |chunks|, q)
      {
      }
    }
  }
}
