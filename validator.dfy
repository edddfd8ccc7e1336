/**
 * `DependencyValidator`: sorts a mission's equipment names into valid and
 * missing classes against the class database, and its asset paths into
 * valid and missing assets against the asset lookup.
 */
module Validation {
  import opened ScanTypes

  /** What the class database records about a class. */
  datatype ClassData = ClassData(parent: string)

  /** The equipment names that are classes of the database (empty names are skipped). */
  function KnownClasses(equipment: set<string>, classData: map<string, ClassData>): set<string> {
    set c | c in equipment && c != "" && c in classData
  }

  /** The equipment names that the database does not know (empty names are skipped). */
  function UnknownClasses(equipment: set<string>, classData: map<string, ClassData>): set<string> {
    set c | c in equipment && c != "" && c !in classData
  }

  /**
   * The non-empty equipment names split into known and unknown classes:
   * the two parts are disjoint and together make up the sanitised
   * equipment.
   */
  lemma ClassesPartition(equipment: set<string>, classData: map<string, ClassData>)
    ensures KnownClasses(equipment, classData) !! UnknownClasses(equipment, classData)
    ensures KnownClasses(equipment, classData) + UnknownClasses(equipment, classData) == Sanitized(equipment)
    ensures forall c :: c in equipment && c != "" ==>
              (c in KnownClasses(equipment, classData) <==> c in classData)
  {
  }

  /** Sorting one more name adds it to exactly the part it belongs to. */
  lemma ClassesNext(valid: set<string>, missing: set<string>, done: set<string>, c: string,
                    classData: map<string, ClassData>)
    requires valid == KnownClasses(done, classData) && missing == UnknownClasses(done, classData)
    ensures (if c != "" && c in classData then valid + {c} else valid) == KnownClasses(done + {c}, classData)
    ensures (if c != "" && c !in classData then missing + {c} else missing) == UnknownClasses(done + {c}, classData)
  {
  }

  /** The asset paths the lookup reports. */
  function FoundAssets(assets: set<string>, cached: string -> bool): set<string> {
    set a | a in assets && cached(a)
  }

  /** The asset paths the lookup does not report. */
  function LostAssets(assets: set<string>, cached: string -> bool): set<string> {
    set a | a in assets && !cached(a)
  }

  /** Every asset path lands in exactly one of the two sets. */
  lemma AssetsPartition(assets: set<string>, cached: string -> bool)
    ensures FoundAssets(assets, cached) !! LostAssets(assets, cached)
    ensures FoundAssets(assets, cached) + LostAssets(assets, cached) == assets
  {
  }

  /** Sorting one more path adds it to exactly the part it belongs to. */
  lemma AssetsNext(valid: set<string>, missing: set<string>, done: set<string>, a: string,
                   cached: string -> bool)
    requires valid == FoundAssets(done, cached) && missing == LostAssets(done, cached)
    ensures (if cached(a) then valid + {a} else valid) == FoundAssets(done + {a}, cached)
    ensures (if cached(a) then missing else missing + {a}) == LostAssets(done + {a}, cached)
  {
  }

  /**
   * A known class whose scan details record a non-empty `parent` other
   * than the database's parent of that class.
   */
  predicate WrongParent(details: map<string, map<string, string>>, classData: map<string, ClassData>, c: string) {
    c in classData && c in details && "parent" in details[c] && details[c]["parent"] != "" &&
    details[c]["parent"] != classData[c].parent
  }

  /** The names `_validate_classes` accepts. */
  function AcceptedClasses(equipment: set<string>, details: map<string, map<string, string>>,
                           classData: map<string, ClassData>): set<string> {
    set c | c in equipment && c != "" && c in classData && !WrongParent(details, classData, c)
  }

  /** The names `_validate_classes` rejects. */
  function RejectedClasses(equipment: set<string>, details: map<string, map<string, string>>,
                           classData: map<string, ClassData>): set<string> {
    set c | c in equipment && c != "" && (c !in classData || WrongParent(details, classData, c))
  }

  /**
   * A known class with a wrong parent is rejected, not accepted; without
   * recorded details the parent check reduces to `_validate_single_mission`'s
   * membership test.
   */
  lemma ParentCheck(equipment: set<string>, details: map<string, map<string, string>>,
                    classData: map<string, ClassData>)
    ensures AcceptedClasses(equipment, details, classData) !! RejectedClasses(equipment, details, classData)
    ensures AcceptedClasses(equipment, details, classData) + RejectedClasses(equipment, details, classData) ==
            Sanitized(equipment)
    ensures forall c :: c in equipment && c != "" && WrongParent(details, classData, c) ==>
              c in RejectedClasses(equipment, details, classData)
    ensures details == map[] ==> AcceptedClasses(equipment, details, classData) == KnownClasses(equipment, classData)
  {
  }

  /** Checking one more name adds it to exactly the set `_validate_classes` puts it in. */
  lemma ParentNext(valid': set<string>, missing': set<string>, valid: set<string>, missing: set<string>,
                   done: set<string>, c: string, details: map<string, map<string, string>>,
                   classData: map<string, ClassData>)
    requires valid' == valid + AcceptedClasses(done, details, classData)
    requires missing' == missing + RejectedClasses(done, details, classData)
    ensures (if c != "" && c in classData && !WrongParent(details, classData, c) then valid' + {c} else valid') ==
            valid + AcceptedClasses(done + {c}, details, classData)
    ensures (if c != "" && (c !in classData || WrongParent(details, classData, c)) then missing' + {c} else missing') ==
            missing + RejectedClasses(done + {c}, details, classData)
  {
  }

  class DependencyValidator {
    /** `asset_api.get_cached_asset`, reduced to whether it reports the path. */
    const cachedAsset: string -> bool
    const maxWorkers: int

    constructor (cachedAsset: string -> bool, maxWorkers: int)
      ensures this.cachedAsset == cachedAsset && this.maxWorkers == maxWorkers
    {
      this.cachedAsset := cachedAsset;
      this.maxWorkers := maxWorkers;
    }

    /** The class loop of `_validate_single_mission`. */
    static method SortClasses(equipment: set<string>, classData: map<string, ClassData>)
      returns (valid: set<string>, missing: set<string>)
      ensures valid == KnownClasses(equipment, classData) && missing == UnknownClasses(equipment, classData)
    {
      valid, missing := {}, {};
      var pending := equipment;
      while pending != {}
        invariant pending <= equipment
        invariant valid == KnownClasses(equipment - pending, classData)
        invariant missing == UnknownClasses(equipment - pending, classData)
        decreases |pending|
      {
        var c :| c in pending;
        ClassesNext(valid, missing, equipment - pending, c, classData);
        assert (equipment - pending) + {c} == equipment - (pending - {c});
        if c != "" {
          if c in classData {
            valid := valid + {c};
          } else {
            missing := missing + {c};
          }
        }
        pending := pending - {c};
      }
      assert equipment - pending == equipment;
    }

    /** The asset loop of `_validate_single_mission`. */
    method SortAssets(assets: set<string>) returns (valid: set<string>, missing: set<string>)
      ensures valid == FoundAssets(assets, cachedAsset) && missing == LostAssets(assets, cachedAsset)
    {
      var cached := cachedAsset;
      valid, missing := {}, {};
      var pending := assets;
      while pending != {}
        invariant pending <= assets
        invariant valid == FoundAssets(assets - pending, cached) && missing == LostAssets(assets - pending, cached)
        decreases |pending|
      {
        var a :| a in pending;
        AssetsNext(valid, missing, assets - pending, a, cached);
        assert (assets - pending) + {a} == assets - (pending - {a});
        if cached(a) {
          valid := valid + {a};
        } else {
          missing := missing + {a};
        }
        pending := pending - {a};
      }
      assert assets - pending == assets;
    }

    /**
     * `_validate_single_mission`: a fresh result whose classes are the
     * equipment sorted against the class database, whose assets are the
     * scan's asset paths sorted by the asset lookup, and whose property
     * results are empty.
     */
    method ValidateSingleMission(scan: ScanResult, classData: map<string, ClassData>)
      returns (result: ValidationResult)
      ensures fresh(result)
      ensures result.validClasses == KnownClasses(scan.equipment, classData)
      ensures result.missingClasses == UnknownClasses(scan.equipment, classData)
      ensures result.validAssets == FoundAssets(scan.validAssets, cachedAsset)
      ensures result.missingAssets == LostAssets(scan.validAssets, cachedAsset)
      ensures result.propertyResults == map[] && result.classSuggestions == map[]
    {
      var validClasses, missingClasses := SortClasses(scan.equipment, classData);
      var validAssets, missingAssets := SortAssets(scan.validAssets);
      result := new ValidationResult(validAssets, validClasses, missingAssets, missingClasses, map[]);
    }

    /**
     * `_validate_classes`: adds each non-empty equipment name to `missing`
     * when the database lacks it or its recorded parent is wrong, and to
     * `valid` otherwise; nothing is removed from either set.
     */
    static method ValidateClasses(scan: ScanResult, classData: map<string, ClassData>,
                                  valid: set<string>, missing: set<string>)
      returns (valid': set<string>, missing': set<string>)
      ensures valid' == valid + AcceptedClasses(scan.equipment, scan.classDetails, classData)
      ensures missing' == missing + RejectedClasses(scan.equipment, scan.classDetails, classData)
    {
      valid', missing' := valid, missing;
      var details := scan.classDetails;
      var equipment := scan.equipment;
      var pending := equipment;
      while pending != {}
        invariant pending <= equipment
        invariant valid' == valid + AcceptedClasses(equipment - pending, details, classData)
        invariant missing' == missing + RejectedClasses(equipment - pending, details, classData)
        decreases |pending|
      {
        var c :| c in pending;
        ParentNext(valid', missing', valid, missing, equipment - pending, c, details, classData);
        assert (equipment - pending) + {c} == equipment - (pending - {c});
        if c != "" {
          if c in classData {
            if c in details && "parent" in details[c] && details[c]["parent"] != "" &&
               details[c]["parent"] != classData[c].parent {
              missing' := missing' + {c};
            } else {
              valid' := valid' + {c};
            }
          } else {
            missing' := missing' + {c};
          }
        }
        pending := pending - {c};
      }
      assert equipment - pending == equipment;
    }

    /**
     * `validate_missions`: every mission whose validation did not raise
     * (those in `failed` did) gets its own fresh result from
     * `_validate_single_mission`; no other key appears.
     */
    method ValidateMissions(missionResults: map<string, ScanResult>, classData: map<string, ClassData>,
                            failed: set<string>)
      returns (results: map<string, ValidationResult>)
      ensures results.Keys == missionResults.Keys - failed
      ensures forall p :: p in results ==>
                fresh(results[p]) &&
                results[p].validClasses == KnownClasses(missionResults[p].equipment, classData) &&
                results[p].missingClasses == UnknownClasses(missionResults[p].equipment, classData) &&
                results[p].validAssets == FoundAssets(missionResults[p].validAssets, cachedAsset) &&
                results[p].missingAssets == LostAssets(missionResults[p].validAssets, cachedAsset) &&
                results[p].propertyResults == map[]
    {
      results := map[];
      var keys := missionResults.Keys;
      var pending := keys;
      while pending != {}
        invariant pending <= keys
        invariant results.Keys == (keys - pending) - failed
        invariant forall p :: p in results ==>
                    fresh(results[p]) &&
                    results[p].validClasses == KnownClasses(missionResults[p].equipment, classData) &&
                    results[p].missingClasses == UnknownClasses(missionResults[p].equipment, classData) &&
                    results[p].validAssets == FoundAssets(missionResults[p].validAssets, cachedAsset) &&
                    results[p].missingAssets == LostAssets(missionResults[p].validAssets, cachedAsset) &&
                    results[p].propertyResults == map[]
        decreases |pending|
      {
        var p :| p in pending;
        if p !in failed {
          var result := ValidateSingleMission(missionResults[p], classData);
          results := results[p := result];
        }
        pending := pending - {p};
      }
      assert keys - pending == keys;
    }
  }
}
