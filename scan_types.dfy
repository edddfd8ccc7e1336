/**
 * The records shared by the scanner, the validator and the analysers:
 * a mission's scan result, a mission class, and a mission's validation
 * result.
 */
module ScanTypes {
  import FuzzyResult

  /** Opaque per-property validation data, only ever copied. */
  type PropertyResults = map<string, string>

  /** The set with its falsy (empty) names removed, as `{str(x) for x in s if x}` does on strings. */
  function Sanitized(s: set<string>): (r: set<string>)
    ensures "" !in r
    ensures r <= s
    ensures forall x :: x in s && x != "" ==> x in r
  {
    set x | x in s && x != ""
  }

  /** Sanitising twice is sanitising once. */
  lemma SanitizedIdempotent(s: set<string>)
    ensures Sanitized(Sanitized(s)) == Sanitized(s)
  {
  }

  /** `ScanResult`: the name sets a mission scan produces, updated in place by `sanitize`. */
  class ScanResult {
    var validAssets: set<string>
    var validClasses: set<string>
    var missingAssets: set<string>
    var missingClasses: set<string>
    var equipment: set<string>
    var propertyResults: PropertyResults
    /** Per class name, its recorded details (for instance its `parent`). */
    var classDetails: map<string, map<string, string>>

    /** The dataclass defaults: every set and dictionary empty. */
    constructor ()
      ensures validAssets == {} && validClasses == {} && missingAssets == {} && missingClasses == {}
      ensures equipment == {} && propertyResults == map[] && classDetails == map[]
    {
      validAssets, validClasses, missingAssets, missingClasses, equipment := {}, {}, {}, {}, {};
      propertyResults, classDetails := map[], map[];
    }

    /** No set holds an empty name. */
    ghost predicate Clean()
      reads this
    {
      "" !in validAssets && "" !in validClasses && "" !in missingAssets && "" !in missingClasses &&
      "" !in equipment
    }

    /**
     * `sanitize`: each of the five sets loses its empty name; the two
     * dictionaries are left alone.
     */
    method Sanitize()
      modifies this
      ensures validAssets == Sanitized(old(validAssets)) && validClasses == Sanitized(old(validClasses))
      ensures missingAssets == Sanitized(old(missingAssets)) && missingClasses == Sanitized(old(missingClasses))
      ensures equipment == Sanitized(old(equipment))
      ensures propertyResults == old(propertyResults) && classDetails == old(classDetails)
      ensures Clean()
    {
      validAssets := Sanitized(validAssets);
      validClasses := Sanitized(validClasses);
      missingAssets := Sanitized(missingAssets);
      missingClasses := Sanitized(missingClasses);
      equipment := Sanitized(equipment);
    }
  }

  /** `MissionClass`: a class defined in a mission file, with its property lists. */
  datatype MissionClass = MissionClass(name: string, properties: map<string, seq<string>>)

  /** `has_property`. */
  predicate HasProperty(c: MissionClass, property: string) {
    property in c.properties
  }

  /** `get_property`: the stored list, or `[]` when the property is absent. */
  function GetProperty(c: MissionClass, property: string): seq<string> {
    if property in c.properties then c.properties[property] else []
  }

  /**
   * The two getters agree: a present property yields its stored list, an
   * absent one the empty list, so a non-empty list means the property is
   * present.
   */
  lemma PropertyGettersAgree(c: MissionClass, property: string)
    ensures HasProperty(c, property) ==> GetProperty(c, property) == c.properties[property]
    ensures !HasProperty(c, property) ==> GetProperty(c, property) == []
    ensures GetProperty(c, property) != [] ==> HasProperty(c, property)
  {
  }

  /**
   * A mission's `ValidationResult`. Nothing in the modelled code reassigns
   * its four name sets or its property results, so they are constants;
   * `classSuggestions` is the map the class analyzer writes into.
   */
  class ValidationResult {
    const validAssets: set<string>
    const validClasses: set<string>
    const missingAssets: set<string>
    const missingClasses: set<string>
    const propertyResults: PropertyResults
    var classSuggestions: map<string, FuzzyResult.FuzzyMatchResult>

    constructor (validAssets: set<string>, validClasses: set<string>, missingAssets: set<string>,
                 missingClasses: set<string>, propertyResults: PropertyResults)
      ensures this.validAssets == validAssets && this.validClasses == validClasses
      ensures this.missingAssets == missingAssets && this.missingClasses == missingClasses
      ensures this.propertyResults == propertyResults
      ensures classSuggestions == map[]
    {
      this.validAssets := validAssets;
      this.validClasses := validClasses;
      this.missingAssets := missingAssets;
      this.missingClasses := missingClasses;
      this.propertyResults := propertyResults;
      classSuggestions := map[];
    }
  }
}
