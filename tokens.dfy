/**
 * The matcher's tokeniser, `re.split(r'[_\s]+', s)`, and the token set
 * `set(split(s.lower()))` that category detection, the candidate filter and
 * the substitution score all work on.
 */
module Tokenizer {
  import opened Text

  /** One character of the separator class `[_\s]`. */
  predicate IsSep(c: char) {
    c == '_' || IsSpace(c)
  }

  predicate NoSep(w: string) {
    forall k :: 0 <= k < |w| ==> !IsSep(w[k])
  }

  /** Drops the maximal run of separators at the front of `s`. */
  function SkipSeps(s: string): (r: string)
    ensures |r| <= |s|
    ensures r == [] || !IsSep(r[0])
    ensures s != [] && IsSep(s[0]) ==> |r| < |s|
    ensures s == [] || !IsSep(s[0]) ==> r == s
  {
    if s != [] && IsSep(s[0]) then SkipSeps(s[1..]) else s
  }

  /**
   * `re.split(r'[_\s]+', s)`: the pieces between maximal separator runs. A
   * run at either end yields an empty piece there, and `""` splits to `[""]`.
   */
  function Split(s: string): (r: seq<string>)
    ensures |r| >= 1
    decreases |s|
  {
    if s == [] then [""]
    else if IsSep(s[0]) then [""] + Split(SkipSeps(s))
    else
      var rest := Split(s[1..]);
      [[s[0]] + rest[0]] + rest[1..]
  }

  /** The characters of `s` that are not separators, in order. */
  function RemoveSeps(s: string): (r: string)
    ensures NoSep(r)
  {
    if s == [] then [] else (if IsSep(s[0]) then [] else [s[0]]) + RemoveSeps(s[1..])
  }

  function Concat(ws: seq<string>): string {
    if ws == [] then [] else ws[0] + Concat(ws[1..])
  }

  lemma {:induction false} ConcatAppend(a: seq<string>, b: seq<string>)
    ensures Concat(a + b) == Concat(a) + Concat(b)
  {
    if a == [] {
      assert a + b == b;
    } else {
      assert (a + b)[0] == a[0];
      assert (a + b)[1..] == a[1..] + b;
      ConcatAppend(a[1..], b);
    }
  }

  lemma {:induction false} SkipSepsRemovesNothing(s: string)
    ensures RemoveSeps(SkipSeps(s)) == RemoveSeps(s)
  {
    if s != [] && IsSep(s[0]) {
      SkipSepsRemovesNothing(s[1..]);
    }
  }

  /** No piece of the split holds a separator. */
  lemma {:induction false} SplitPiecesHaveNoSep(s: string)
    ensures forall i :: 0 <= i < |Split(s)| ==> NoSep(Split(s)[i])
    decreases |s|
  {
    if s == [] {
    } else if IsSep(s[0]) {
      SplitPiecesHaveNoSep(SkipSeps(s));
    } else {
      SplitPiecesHaveNoSep(s[1..]);
      var rest := Split(s[1..]);
      assert NoSep(rest[0]);
      assert NoSep([s[0]] + rest[0]);
    }
  }

  /** A leading separator run adds an empty piece and removes nothing else. */
  lemma SplitKeepsAfterSep(s: string)
    requires s != [] && IsSep(s[0])
    requires Concat(Split(SkipSeps(s))) == RemoveSeps(SkipSeps(s))
    ensures Concat(Split(s)) == RemoveSeps(s)
  {
    var pieces := Split(SkipSeps(s));
    assert Split(s) == [""] + pieces;
    assert ([""] + pieces)[1..] == pieces;
    SkipSepsRemovesNothing(s);
  }

  /** A leading non-separator goes to the front of the first piece. */
  lemma SplitKeepsAfterChar(s: string)
    requires s != [] && !IsSep(s[0])
    requires Concat(Split(s[1..])) == RemoveSeps(s[1..])
    ensures Concat(Split(s)) == RemoveSeps(s)
  {
    var rest := Split(s[1..]);
    var first := [s[0]] + rest[0];
    var pieces := [first] + rest[1..];
    var glued := Concat(rest[1..]);
    assert Split(s) == pieces;
    assert pieces[0] == first && pieces[1..] == rest[1..];
    assert Concat(pieces) == first + glued;
    assert Concat(rest) == rest[0] + glued;
    assert RemoveSeps(s) == [s[0]] + RemoveSeps(s[1..]);
    AppendAssociative([s[0]], rest[0], glued);
  }

  lemma AppendAssociative(a: string, b: string, c: string)
    ensures (a + b) + c == a + (b + c)
  {
  }

  /**
   * Splitting loses exactly the separators: the pieces, glued back
   * together, are `s` with every separator removed.
   */
  lemma {:induction false} SplitKeepsAllButSeps(s: string)
    ensures Concat(Split(s)) == RemoveSeps(s)
    decreases |s|
  {
    if s == [] {
    } else if IsSep(s[0]) {
      SplitKeepsAllButSeps(SkipSeps(s));
      SplitKeepsAfterSep(s);
    } else {
      SplitKeepsAllButSeps(s[1..]);
      SplitKeepsAfterChar(s);
    }
  }

  /** `set(re.split(r'[_\s]+', name.lower()))`. */
  function Tokens(name: string): (r: set<string>)
    ensures forall t :: t in r <==> t in Split(Lower(name))
  {
    set t | t in Split(Lower(name))
  }

  /** The token set is never empty: the split always yields a piece. */
  lemma TokensNonEmpty(name: string)
    ensures Tokens(name) != {}
    ensures |Dedup(Split(Lower(name)))| >= 1
  {
    var s := Split(Lower(name));
    assert s[0] in Tokens(name);
    assert s[0] in Dedup(s);
  }

  /** A token never contains a separator. */
  lemma TokensHaveNoSep(name: string)
    ensures forall t :: t in Tokens(name) ==> NoSep(t)
  {
    SplitPiecesHaveNoSep(Lower(name));
  }

  /**
   * The alias `simc_us` of the default substitution table contains `_`, so
   * no token of any name ever equals it.
   */
  lemma SimcUsNeverAToken(name: string)
    ensures "simc_us" !in Tokens(name)
  {
    TokensHaveNoSep(name);
    assert !NoSep("simc_us") by {
      assert IsSep("simc_us"[4]);
    }
  }

  /** A word without separators splits to itself. */
  lemma {:induction false} SplitWord(w: string)
    requires NoSep(w)
    ensures Split(w) == [w]
  {
    if w != [] {
      SplitWord(w[1..]);
      assert [w[0]] + w[1..] == w;
    }
  }

  /** Two words joined by one separator split into exactly those words. */
  lemma {:induction false} SplitTwoWords(w1: string, c: char, w2: string)
    requires NoSep(w1) && IsSep(c) && NoSep(w2)
    ensures Split(w1 + [c] + w2) == [w1, w2]
  {
    if w1 == [] {
      assert w1 + [c] + w2 == [c] + w2;
      assert SkipSeps([c] + w2) == SkipSeps(w2) by {
        assert ([c] + w2)[1..] == w2;
      }
      SplitWord(w2);
    } else {
      SplitTwoWords(w1[1..], c, w2);
      assert (w1 + [c] + w2)[1..] == w1[1..] + [c] + w2;
      assert [w1[0]] + w1[1..] == w1;
    }
  }
}

/**
 * `_detect_category`: the first category, in the table's declaration
 * order, whose keyword set meets the name's token set.
 */
module CategoryDetection {
  import opened Text
  import opened FuzzyConfig
  import opened Tokenizer

  /** True when category `i` of `cats` shares a keyword with `parts`. */
  predicate Meets(cats: Table, i: int, parts: set<string>)
    requires 0 <= i < |cats|
  {
    cats[i].1 * parts != {}
  }

  function FirstCategory(cats: Table, parts: set<string>): (r: Option<string>)
    ensures r.None? <==> forall i :: 0 <= i < |cats| ==> !Meets(cats, i, parts)
    ensures r.Some? ==> exists i :: 0 <= i < |cats| && Meets(cats, i, parts) && r.value == cats[i].0 &&
                                    forall j :: 0 <= j < i ==> !Meets(cats, j, parts)
  {
    if cats == [] then None
    else if cats[0].1 * parts != {} then
      assert Meets(cats, 0, parts);
      Some(cats[0].0)
    else
      var r := FirstCategory(cats[1..], parts);
      assert forall i :: 1 <= i < |cats| ==> (Meets(cats, i, parts) <==> Meets(cats[1..], i - 1, parts));
      if r.Some? then
        var i :| 0 <= i < |cats[1..]| && Meets(cats[1..], i, parts) && r.value == cats[1..][i].0
          && forall j :: 0 <= j < i ==> !Meets(cats[1..], j, parts);
        assert Meets(cats, i + 1, parts) && r.value == cats[i + 1].0;
        r
      else
        r
  }

  /** `_detect_category(class_name)` and its public alias `get_category_match`. */
  function DetectCategory(cfg: Config, name: string): (r: Option<string>)
    ensures r.None? <==> forall i :: 0 <= i < |cfg.categories| ==> !Meets(cfg.categories, i, Tokens(name))
  {
    FirstCategory(cfg.categories, Tokens(name))
  }

  /**
   * The first meeting category wins, whatever later categories also meet.
   */
  lemma {:induction false} DetectCategoryIsFirst(cfg: Config, name: string, i: int)
    requires 0 <= i < |cfg.categories| && Meets(cfg.categories, i, Tokens(name))
    requires forall j :: 0 <= j < i ==> !Meets(cfg.categories, j, Tokens(name))
    ensures DetectCategory(cfg, name) == Some(cfg.categories[i].0)
  {
    var r := DetectCategory(cfg, name);
    var k :| 0 <= k < |cfg.categories| && Meets(cfg.categories, k, Tokens(name)) && r.value == cfg.categories[k].0
      && forall j :: 0 <= j < k ==> !Meets(cfg.categories, j, Tokens(name));
    assert k == i;
  }

  lemma HelmetCombatTokens(name: string)
    requires name == "helmet_combat"
    ensures Tokens(name) == {"helmet", "combat"}
  {
    assert Lower(name) == name;
    assert name == "helmet" + ['_'] + "combat";
    SplitTwoWords("helmet", '_', "combat");
  }

  /**
   * `helmet_combat` is a helmet although `combat` is a uniform keyword:
   * helmet is declared first.
   */
  lemma HelmetBeatsUniform(name: string)
    requires name == "helmet_combat"
    ensures DetectCategory(Default(), name) == Some("helmet")
    ensures Meets(Default().categories, 2, Tokens(name))
  {
    HelmetCombatTokens(name);
    var t := DefaultCategories();
    assert "helmet" in t[0].1 * Tokens(name);
    assert "combat" in t[2].1 * Tokens(name);
    DetectCategoryIsFirst(Default(), name, 0);
  }
}
