/**
 * `FuzzyMatchConfig`: the matcher's thresholds and its two keyword tables,
 * with the default values the dataclass declares.
 */
module FuzzyConfig {

  /**
   * A Python `Dict[str, Set[str]]` in insertion order: the order decides
   * which category is tried first and which canonical word wins in the
   * reverse substitution index.
   */
  type Table = seq<(string, set<string>)>

  predicate KeysDistinct(t: Table) {
    forall i, j :: 0 <= i < j < |t| ==> t[i].0 != t[j].0
  }

  /** No word is listed under two keys. */
  predicate ValuesDisjoint(t: Table) {
    forall i, j :: 0 <= i < j < |t| ==> t[i].1 !! t[j].1
  }

  function Keys(t: Table): (r: seq<string>)
    ensures |r| == |t| && forall i :: 0 <= i < |t| ==> r[i] == t[i].0
  {
    if t == [] then [] else [t[0].0] + Keys(t[1..])
  }

  /** `dict.get(key, set())` on a table whose keys are distinct. */
  function Get(t: Table, key: string): (r: set<string>)
    ensures (exists i :: 0 <= i < |t| && t[i].0 == key) || r == {}
    ensures forall i :: 0 <= i < |t| && t[i].0 == key && (forall j :: 0 <= j < i ==> t[j].0 != key) ==> r == t[i].1
  {
    if t == [] then {}
    else if t[0].0 == key then t[0].1
    else
      var r := Get(t[1..], key);
      assert forall i :: 1 <= i < |t| ==> t[1..][i - 1] == t[i];
      r
  }

  datatype Config = Config(
    similarityThreshold: real,
    baseWeight: real,
    substitutionWeight: real,
    quickMatchThreshold: real,
    cacheSize: int,
    maxSuggestions: int,
    highConfidenceThreshold: real,
    categories: Table,
    wordSubstitutions: Table)

  function DefaultCategories(): Table {
    [ ("helmet", {"helmet", "hat", "cap", "boonie", "cover"}),
      ("vest", {"vest", "carrier", "plate", "armor"}),
      ("uniform", {"uniform", "shirt", "combat", "clothing"}),
      ("weapon", {"rifle", "gun", "pistol", "launcher", "carbine"}),
      ("attachment", {"optic", "scope", "sight", "suppressor", "silencer", "grip"}) ]
  }

  function DefaultSubstitutions(): Table {
    [ ("aegis", {"hat", "helmet", "uniform", "vest"}),
      ("addon", {"add", "equipment"}),
      ("nomex", {"nmx", "nometex"}),
      ("simc", {"sim", "simc_us"}),
      ("blk", {"black"}),
      ("tan", {"desert", "sand"}),
      ("od", {"olive"}),
      ("multicam", {"mc", "multi"}) ]
  }

  /** `FuzzyMatchConfig()` with every field at its declared default. */
  function Default(): Config {
    Config(
      similarityThreshold := 0.75,
      baseWeight := 0.7,
      substitutionWeight := 0.3,
      quickMatchThreshold := 0.9,
      cacheSize := 1024,
      maxSuggestions := 3,
      highConfidenceThreshold := 0.9,
      categories := DefaultCategories(),
      wordSubstitutions := DefaultSubstitutions())
  }

  /** The declared default thresholds; the two weights add up to one. */
  lemma DefaultThresholds()
    ensures Default().similarityThreshold == 0.75
    ensures Default().maxSuggestions == 3
    ensures Default().highConfidenceThreshold == 0.9
    ensures Default().baseWeight + Default().substitutionWeight == 1.0
  {
  }

  /** Two default categories share no keyword (checked pair by pair). */
  lemma DefaultCategoriesPairDisjoint(i: nat, j: nat)
    requires i < j < 5
    ensures DefaultCategories()[i].1 !! DefaultCategories()[j].1
  {
    var t := DefaultCategories();
    if i == 0 {
      if j == 1 { assert t[0].1 !! t[1].1; }
      else if j == 2 { assert t[0].1 !! t[2].1; }
      else if j == 3 { assert t[0].1 !! t[3].1; }
      else { assert t[0].1 !! t[4].1; }
    } else if i == 1 {
      if j == 2 { assert t[1].1 !! t[2].1; }
      else if j == 3 { assert t[1].1 !! t[3].1; }
      else { assert t[1].1 !! t[4].1; }
    } else if i == 2 {
      if j == 3 { assert t[2].1 !! t[3].1; }
      else { assert t[2].1 !! t[4].1; }
    } else {
      assert t[3].1 !! t[4].1;
    }
  }

  /** The categories come in declaration order and share no keyword. */
  lemma DefaultCategoriesDisjoint()
    ensures Keys(Default().categories) == ["helmet", "vest", "uniform", "weapon", "attachment"]
    ensures KeysDistinct(Default().categories)
    ensures ValuesDisjoint(Default().categories)
  {
    var t := DefaultCategories();
    forall i, j | 0 <= i < j < |t| ensures t[i].1 !! t[j].1 {
      DefaultCategoriesPairDisjoint(i, j);
    }
  }

  /** Two default canonical words list no common alias (checked pair by pair). */
  lemma DefaultSubstitutionsPairDisjoint(i: nat, j: nat)
    requires i < j < 8
    ensures DefaultSubstitutions()[i].1 !! DefaultSubstitutions()[j].1
  {
    var t := DefaultSubstitutions();
    if i == 0 {
      if j == 1 { assert t[0].1 !! t[1].1; }
      else if j == 2 { assert t[0].1 !! t[2].1; }
      else if j == 3 { assert t[0].1 !! t[3].1; }
      else if j == 4 { assert t[0].1 !! t[4].1; }
      else if j == 5 { assert t[0].1 !! t[5].1; }
      else if j == 6 { assert t[0].1 !! t[6].1; }
      else { assert t[0].1 !! t[7].1; }
    } else if i == 1 {
      if j == 2 { assert t[1].1 !! t[2].1; }
      else if j == 3 { assert t[1].1 !! t[3].1; }
      else if j == 4 { assert t[1].1 !! t[4].1; }
      else if j == 5 { assert t[1].1 !! t[5].1; }
      else if j == 6 { assert t[1].1 !! t[6].1; }
      else { assert t[1].1 !! t[7].1; }
    } else if i == 2 {
      if j == 3 { assert t[2].1 !! t[3].1; }
      else if j == 4 { assert t[2].1 !! t[4].1; }
      else if j == 5 { assert t[2].1 !! t[5].1; }
      else if j == 6 { assert t[2].1 !! t[6].1; }
      else { assert t[2].1 !! t[7].1; }
    } else if i == 3 {
      if j == 4 { assert t[3].1 !! t[4].1; }
      else if j == 5 { assert t[3].1 !! t[5].1; }
      else if j == 6 { assert t[3].1 !! t[6].1; }
      else { assert t[3].1 !! t[7].1; }
    } else if i == 4 {
      if j == 5 { assert t[4].1 !! t[5].1; }
      else if j == 6 { assert t[4].1 !! t[6].1; }
      else { assert t[4].1 !! t[7].1; }
    } else if i == 5 {
      if j == 6 { assert t[5].1 !! t[6].1; }
      else { assert t[5].1 !! t[7].1; }
    } else {
      assert t[6].1 !! t[7].1;
    }
  }

  /** No alias is listed under two canonical words. */
  lemma DefaultSubstitutionsUnambiguous()
    ensures KeysDistinct(Default().wordSubstitutions)
    ensures ValuesDisjoint(Default().wordSubstitutions)
  {
    var t := DefaultSubstitutions();
    forall i, j | 0 <= i < j < |t| ensures t[i].1 !! t[j].1 {
      DefaultSubstitutionsPairDisjoint(i, j);
    }
  }
}
