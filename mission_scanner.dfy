/**
 * The mission package's `DependencyScanner`: every equipment reference of
 * a mission's files is classified as a valid asset, a valid class, a
 * missing asset or a missing class against the scanner's two databases.
 */
module MissionScanning {
  import opened Text
  import opened CoreScanning

  /** `ScanResult` of the mission package. */
  datatype ScanResult = ScanResult(missingAssets: set<string>, missingClasses: set<string>,
                                   unknownReferences: set<string>, validAssets: set<string>,
                                   validClasses: set<string>)

  /** Where a reference lands. */
  datatype Kind = ValidAsset | ValidClass | MissingAsset | MissingClass

  /** `ref.endswith(('.paa', '.p3d', '.wss'))`. */
  predicate HasAssetSuffix(ref: string) {
    EndsWith(ref, ".paa") || EndsWith(ref, ".p3d") || EndsWith(ref, ".wss")
  }

  /** The branch `validate_mission` takes for `ref`. */
  function Classify(ref: string, assetDb: set<string>, classDb: map<string, set<string>>): Kind {
    if ref in assetDb then ValidAsset
    else if InSomeCategory(ref, classDb) then ValidClass
    else if HasAssetSuffix(ref) then MissingAsset
    else MissingClass
  }

  /** The references of `refs` that land in `kind`. */
  function Bucket(refs: set<string>, kind: Kind, assetDb: set<string>, classDb: map<string, set<string>>): set<string> {
    set ref | ref in refs && Classify(ref, assetDb, classDb) == kind
  }

  /** The result of classifying every reference of `refs`. */
  function Classified(refs: set<string>, assetDb: set<string>, classDb: map<string, set<string>>): ScanResult {
    ScanResult(Bucket(refs, MissingAsset, assetDb, classDb), Bucket(refs, MissingClass, assetDb, classDb), {},
               Bucket(refs, ValidAsset, assetDb, classDb), Bucket(refs, ValidClass, assetDb, classDb))
  }

  /** `r` with `ref` added to the set for `kind`. */
  function Record(r: ScanResult, ref: string, kind: Kind): ScanResult {
    match kind
    case ValidAsset => r.(validAssets := r.validAssets + {ref})
    case ValidClass => r.(validClasses := r.validClasses + {ref})
    case MissingAsset => r.(missingAssets := r.missingAssets + {ref})
    case MissingClass => r.(missingClasses := r.missingClasses + {ref})
  }

  /** Classifying one more reference records it in the set of its kind. */
  lemma ClassifiedNext(refs: set<string>, ref: string, assetDb: set<string>, classDb: map<string, set<string>>)
    ensures Record(Classified(refs, assetDb, classDb), ref, Classify(ref, assetDb, classDb)) ==
            Classified(refs + {ref}, assetDb, classDb)
  {
  }

  /** The references of all the files' equipment. */
  function References(files: seq<set<string>>): (r: set<string>)
    ensures forall i :: 0 <= i < |files| ==> files[i] <= r
    ensures forall ref :: ref in r ==> exists i :: 0 <= i < |files| && ref in files[i]
  {
    if files == [] then {}
    else
      var front := files[..|files| - 1];
      assert forall i :: 0 <= i < |front| ==> front[i] == files[i];
      References(front) + files[|files| - 1]
  }

  /**
   * Every reference lands in exactly one of the four sets, the unknown
   * references stay empty, the asset database is consulted first, and an
   * unknown reference is a missing asset exactly when it has an asset
   * suffix.
   */
  lemma ClassificationRules(refs: set<string>, assetDb: set<string>, classDb: map<string, set<string>>)
    ensures var r := Classified(refs, assetDb, classDb);
            r.validAssets + r.validClasses + r.missingAssets + r.missingClasses == refs &&
            r.validAssets !! r.validClasses && r.validAssets !! r.missingAssets && r.validAssets !! r.missingClasses &&
            r.validClasses !! r.missingAssets && r.validClasses !! r.missingClasses &&
            r.missingAssets !! r.missingClasses &&
            r.unknownReferences == {}
    ensures forall ref :: ref in refs && ref in assetDb ==> ref in Classified(refs, assetDb, classDb).validAssets
    ensures forall ref :: ref in refs && ref !in assetDb && InSomeCategory(ref, classDb) ==>
              ref in Classified(refs, assetDb, classDb).validClasses
    ensures forall ref :: ref in refs && ref !in assetDb && !InSomeCategory(ref, classDb) ==>
              (ref in Classified(refs, assetDb, classDb).missingAssets <==> HasAssetSuffix(ref))
  {
    var r := Classified(refs, assetDb, classDb);
    forall ref | ref in refs
      ensures ref in r.validAssets + r.validClasses + r.missingAssets + r.missingClasses
    {
      match Classify(ref, assetDb, classDb)
      case ValidAsset =>
      case ValidClass =>
      case MissingAsset =>
      case MissingClass =>
    }
  }

  class DependencyScanner {
    var assetDb: set<string>
    var classDb: map<string, set<string>>

    /** A scanner with empty databases. */
    constructor ()
      ensures assetDb == {} && classDb == map[]
    {
      assetDb := {};
      classDb := map[];
    }

    /** The loop over one file's equipment. */
    method ClassifyFile(file: set<string>, acc: ScanResult, ghost seen: set<string>) returns (r: ScanResult)
      requires acc == Classified(seen, assetDb, classDb)
      ensures r == Classified(seen + file, assetDb, classDb)
    {
      r := acc;
      var pending := file;
      while pending != {}
        invariant pending <= file
        invariant r == Classified(seen + (file - pending), assetDb, classDb)
        decreases |pending|
      {
        var ref :| ref in pending;
        ClassifiedNext(seen + (file - pending), ref, assetDb, classDb);
        assert (seen + (file - pending)) + {ref} == seen + (file - (pending - {ref}));
        if ref in assetDb {
          r := r.(validAssets := r.validAssets + {ref});
        } else {
          var found := SearchCategories(ref, classDb);
          if found {
            r := r.(validClasses := r.validClasses + {ref});
          } else if EndsWith(ref, ".paa") || EndsWith(ref, ".p3d") || EndsWith(ref, ".wss") {
            r := r.(missingAssets := r.missingAssets + {ref});
          } else {
            r := r.(missingClasses := r.missingClasses + {ref});
          }
        }
        pending := pending - {ref};
      }
      assert file - pending == file;
    }

    /**
     * `validate_mission`, given the equipment sets of the mission's
     * scanned files: the classification of all their references. The
     * databases are read and not changed.
     */
    method ValidateMission(files: seq<set<string>>) returns (r: ScanResult)
      ensures r == Classified(References(files), assetDb, classDb)
    {
      r := ScanResult({}, {}, {}, {}, {});
      assert r == Classified({}, assetDb, classDb);
      for i := 0 to |files|
        invariant r == Classified(References(files[..i]), assetDb, classDb)
      {
        assert files[..i + 1][..i] == files[..i];
        r := ClassifyFile(files[i], r, References(files[..i]));
      }
      assert files[..|files|] == files;
    }
  }
}
