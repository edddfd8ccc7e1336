/**
 * The two string helpers of the cache utilities: the path normalisation
 * used for cache lookups and the game-data/task cache key.
 */
module CacheKeys {

  /** `_normalize_path`: `str(path).replace('\\', '/')`. */
  function NormalizePath(path: string): (r: string)
    ensures |r| == |path|
    ensures forall i :: 0 <= i < |path| ==> r[i] == if path[i] == '\\' then '/' else path[i]
    ensures '\\' !in r
  {
    if path == [] then []
    else [if path[0] == '\\' then '/' else path[0]] + NormalizePath(path[1..])
  }

  /** Normalising a normalised path changes nothing. */
  lemma {:induction false} NormalizePathIdempotent(path: string)
    ensures NormalizePath(NormalizePath(path)) == NormalizePath(path)
  {
    if path != [] {
      NormalizePathIdempotent(path[1..]);
      assert NormalizePath(path)[1..] == NormalizePath(path[1..]);
    }
  }

  /** A path without backslashes is already normalised. */
  lemma {:induction false} NormalizePathFixes(path: string)
    requires '\\' !in path
    ensures NormalizePath(path) == path
  {
    if path != [] {
      NormalizePathFixes(path[1..]);
    }
  }

  /** `get_cache_key`: `f"{game_data}_{task}"`. */
  function GetCacheKey(gameData: string, task: string): (key: string)
    ensures |key| == |gameData| + 1 + |task|
    ensures key[..|gameData|] == gameData && key[|gameData|] == '_' && key[|gameData| + 1..] == task
  {
    gameData + "_" + task
  }

  /**
   * The key determines both the game data and its task when the game data has
   * no underscore: its first underscore is the separator.
   */
  lemma CacheKeyInjective(g1: string, t1: string, g2: string, t2: string)
    requires '_' !in g1 && '_' !in g2
    requires GetCacheKey(g1, t1) == GetCacheKey(g2, t2)
    ensures g1 == g2 && t1 == t2
  {
  }

  /** With an underscore in the game data, two different pairs can share a key. */
  lemma CacheKeyCollision(g: string, t: string)
    requires g == "a_b" && t == "c"
    ensures GetCacheKey(g, t) == GetCacheKey("a", "b_c")
  {
  }
}
