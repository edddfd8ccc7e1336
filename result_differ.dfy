/**
 * `ResultDiffer`: the validation results of one task with the missing
 * dependencies another task also misses taken out.
 */
module ResultDiffing {
  import opened ScanTypes

  /** The missing names of `compare` that `base` does not also miss. */
  function NewMissing(compare: set<string>, base: set<string>): (r: set<string>)
    ensures r <= compare && r !! base
    ensures forall x :: x in compare && x !in base ==> x in r
  {
    compare - base
  }

  /**
   * Differencing against the same base a second time removes nothing
   * more, and a base that misses nothing of `compare` removes nothing.
   */
  lemma NewMissingSettled(compare: set<string>, base: set<string>)
    ensures NewMissing(NewMissing(compare, base), base) == NewMissing(compare, base)
    ensures compare !! base ==> NewMissing(compare, base) == compare
    ensures compare <= base ==> NewMissing(compare, base) == {}
  {
  }

  /** One differenced result: `compare`'s valid sets and property results, with the new missing sets. */
  predicate Differenced(out: ValidationResult, compare: ValidationResult, base: ValidationResult)
  {
    out.validAssets == compare.validAssets && out.validClasses == compare.validClasses &&
    out.propertyResults == compare.propertyResults &&
    out.missingAssets == NewMissing(compare.missingAssets, base.missingAssets) &&
    out.missingClasses == NewMissing(compare.missingClasses, base.missingClasses)
  }

  /** The new result for a mission both tasks validated. */
  method DifferenceOne(compare: ValidationResult, base: ValidationResult) returns (out: ValidationResult)
    ensures fresh(out) && Differenced(out, compare, base) && out.classSuggestions == map[]
  {
    var missingClasses := compare.missingClasses - base.missingClasses;
    var missingAssets := compare.missingAssets - base.missingAssets;
    out := new ValidationResult(compare.validAssets, compare.validClasses, missingAssets, missingClasses,
                                compare.propertyResults);
  }

  /**
   * `difference_results`: one entry per mission of `compareResults`; a
   * mission `baseResults` lacks keeps its own result object, any other
   * gets a new result whose missing sets lose what the base result also
   * misses. Neither input is changed.
   */
  method DifferenceResults(baseResults: map<string, ValidationResult>, compareResults: map<string, ValidationResult>)
    returns (out: map<string, ValidationResult>)
    ensures out.Keys == compareResults.Keys
    ensures forall p :: p in out && p !in baseResults ==> out[p] == compareResults[p]
    ensures forall p :: p in out && p in baseResults ==>
              fresh(out[p]) && Differenced(out[p], compareResults[p], baseResults[p])
  {
    out := map[];
    var keys := compareResults.Keys;
    var pending := keys;
    while pending != {}
      invariant pending <= keys
      invariant out.Keys == keys - pending
      invariant forall p :: p in out && p !in baseResults ==> out[p] == compareResults[p]
      invariant forall p :: p in out && p in baseResults ==>
                  fresh(out[p]) && Differenced(out[p], compareResults[p], baseResults[p])
      decreases |pending|
    {
      var p :| p in pending;
      if p !in baseResults {
        out := out[p := compareResults[p]];
      } else {
        var result := DifferenceOne(compareResults[p], baseResults[p]);
        out := out[p := result];
      }
      pending := pending - {p};
    }
    assert keys - pending == keys;
  }
}
