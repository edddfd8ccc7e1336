/**
 * The check of a list of scan tasks and the per-mission validation of the stand-alone
 * scanner script: an equipment name is valid when some category of the
 * class catalogue holds it.
 */
module CoreScanning {

  /** `ScanTask`: a named task over a list of mods and a class configuration. */
  datatype ScanTask = ScanTask(name: string, mods: seq<string>, classConfig: string, skipAssets: bool)

  /** `ValidationResult`: the four name sets of one mission's validation. */
  datatype ValidationResult = ValidationResult(validAssets: set<string>, validClasses: set<string>,
                                               missingAssets: set<string>, missingClasses: set<string>)

  /** `needs_asset_scanning`: `any(not task.skip_assets for task in tasks)`. */
  function NeedsAssetScanning(tasks: seq<ScanTask>): (r: bool)
    ensures r <==> exists i :: 0 <= i < |tasks| && !tasks[i].skipAssets
    ensures tasks == [] ==> !r
  {
    if tasks == [] then false
    else if !tasks[0].skipAssets then true
    else
      var r := NeedsAssetScanning(tasks[1..]);
      assert forall i :: 0 < i < |tasks| ==> tasks[i] == tasks[1..][i - 1];
      r
  }

  /** Asset scanning is needed for a list with a task that scans assets, whatever else the list holds. */
  lemma {:induction false} NeedsAssetScanningAppend(a: seq<ScanTask>, b: seq<ScanTask>)
    ensures NeedsAssetScanning(a + b) == (NeedsAssetScanning(a) || NeedsAssetScanning(b))
  {
    if NeedsAssetScanning(a + b) {
      var i :| 0 <= i < |a + b| && !(a + b)[i].skipAssets;
      if i < |a| {
        assert !a[i].skipAssets;
      } else {
        assert !b[i - |a|].skipAssets;
      }
    } else {
      assert forall i :: 0 <= i < |a| ==> (a + b)[i] == a[i];
      assert forall i :: 0 <= i < |b| ==> (a + b)[|a| + i] == b[i];
    }
  }

  /** Some category set of `classes` holds `name`. */
  predicate InSomeCategory(name: string, classes: map<string, set<string>>) {
    exists category :: category in classes && name in classes[category]
  }

  /** The inner loop over `classes.values()`, left at the first category holding `name`. */
  method SearchCategories(name: string, classes: map<string, set<string>>) returns (found: bool)
    ensures found <==> InSomeCategory(name, classes)
  {
    found := false;
    var pending := classes.Keys;
    while pending != {}
      invariant pending <= classes.Keys
      invariant forall category :: category in classes && category !in pending ==> name !in classes[category]
      decreases |pending|
    {
      var category :| category in pending;
      if name in classes[category] {
        found := true;
        break;
      }
      pending := pending - {category};
    }
  }

  /** The equipment names some category holds. */
  function KnownNames(equipment: set<string>, classes: map<string, set<string>>): set<string> {
    set e | e in equipment && InSomeCategory(e, classes)
  }

  /** The equipment names no category holds. */
  function UnknownNames(equipment: set<string>, classes: map<string, set<string>>): set<string> {
    set e | e in equipment && !InSomeCategory(e, classes)
  }

  /** Sorting one more name adds it to exactly the part it belongs to. */
  lemma SortNext(valid: set<string>, missing: set<string>, done: set<string>, e: string,
                 classes: map<string, set<string>>)
    requires valid == KnownNames(done, classes) && missing == UnknownNames(done, classes)
    ensures (if InSomeCategory(e, classes) then valid + {e} else valid) == KnownNames(done + {e}, classes)
    ensures (if InSomeCategory(e, classes) then missing else missing + {e}) == UnknownNames(done + {e}, classes)
  {
  }

  /**
   * `validate_mission`: every equipment name (the empty one included) is
   * a valid class when some category holds it and a missing class
   * otherwise; no asset is validated. The mission's own class list and
   * the asset lookup are not consulted.
   */
  method ValidateMission(equipment: set<string>, classes: map<string, set<string>>) returns (r: ValidationResult)
    ensures r.validClasses == KnownNames(equipment, classes)
    ensures r.missingClasses == UnknownNames(equipment, classes)
    ensures r.validAssets == {} && r.missingAssets == {}
  {
    var validClasses: set<string> := {};
    var missingClasses: set<string> := {};
    var pending := equipment;
    while pending != {}
      invariant pending <= equipment
      invariant validClasses == KnownNames(equipment - pending, classes)
      invariant missingClasses == UnknownNames(equipment - pending, classes)
      decreases |pending|
    {
      var e :| e in pending;
      var found := SearchCategories(e, classes);
      SortNext(validClasses, missingClasses, equipment - pending, e, classes);
      assert (equipment - pending) + {e} == equipment - (pending - {e});
      if found {
        validClasses := validClasses + {e};
      } else {
        missingClasses := missingClasses + {e};
      }
      pending := pending - {e};
    }
    assert equipment - pending == equipment;
    r := ValidationResult({}, validClasses, {}, missingClasses);
  }

  /**
   * The valid and the missing classes partition the equipment, and a
   * name is valid exactly when some category holds it.
   */
  lemma ValidationPartition(equipment: set<string>, classes: map<string, set<string>>)
    ensures KnownNames(equipment, classes) !! UnknownNames(equipment, classes)
    ensures KnownNames(equipment, classes) + UnknownNames(equipment, classes) == equipment
    ensures forall e :: e in equipment ==> (e in KnownNames(equipment, classes) <==> InSomeCategory(e, classes))
  {
  }
}
