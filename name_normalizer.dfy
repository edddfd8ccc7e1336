/**
 * `FuzzyClassMatcher.normalize_class_name`: the comparison form of a class
 * name. The source applies, in order, `lower()`, the substitution of
 * `^(cls_|class_|item_)` by "", of `_\d+$` by "", of `_+` by "_", and
 * finally `strip('_')`. Each step is one function here.
 */
module NameNormalizer {
  import opened Text

  /** Removes one leading `cls_`, `class_` or `item_` (the regex alternation is anchored once). */
  function StripPrefix(s: string): (r: string)
    ensures |r| <= |s|
  {
    if StartsWith(s, "cls_") then s[4..]
    else if StartsWith(s, "class_") then s[6..]
    else if StartsWith(s, "item_") then s[5..]
    else s
  }

  /**
   * Prefix removal keeps a suffix of the name, and what it removes, if
   * anything, is exactly one of the three prefixes; a name with none of
   * them is kept whole.
   */
  lemma StripPrefixRemovesOnePrefix(s: string)
    ensures StripPrefix(s) == s[|s| - |StripPrefix(s)|..]
    ensures StripPrefix(s) != s ==> s[..|s| - |StripPrefix(s)|] in {"cls_", "class_", "item_"}
    ensures StartsWith(s, "cls_") ==> StripPrefix(s) == s[4..]
    ensures !StartsWith(s, "cls_") && !StartsWith(s, "class_") && !StartsWith(s, "item_") ==> StripPrefix(s) == s
  {
  }

  /** Length of the run of ASCII digits that ends `s`. */
  function TrailingDigits(s: string): (k: nat)
    ensures k <= |s|
    ensures forall i :: |s| - k <= i < |s| ==> IsDigit(s[i])
    ensures k < |s| ==> !IsDigit(s[|s| - k - 1])
  {
    if s == [] || !IsDigit(s[|s| - 1]) then 0 else TrailingDigits(s[..|s| - 1]) + 1
  }

  /**
   * Substitution of `_\d+$` by "": the only place the pattern can match is
   * an underscore followed by the whole trailing digit run.
   */
  function StripNumberSuffix(s: string): (r: string)
    ensures |r| <= |s|
  {
    var k := TrailingDigits(s);
    if 0 < k < |s| && s[|s| - k - 1] == '_' then s[..|s| - k - 1] else s
  }

  /** Suffix removal keeps a prefix of the name. */
  lemma StripNumberSuffixKeepsPrefix(s: string)
    ensures StripNumberSuffix(s) == s[..|StripNumberSuffix(s)|]
  {
  }

  ghost predicate NoDoubleUnderscore(s: string) {
    forall i, j :: 0 <= i < j < |s| && j == i + 1 ==> !(s[i] == '_' && s[j] == '_')
  }

  /** The string with every underscore removed (what collapsing keeps intact). */
  function WithoutUnderscores(s: string): (r: string)
    ensures '_' !in r
  {
    if s == [] then [] else (if s[0] == '_' then [] else [s[0]]) + WithoutUnderscores(s[1..])
  }

  /** Substitution of `_+` by "_": every run of underscores becomes one. */
  function Collapse(s: string): string {
    if |s| < 2 then s
    else if s[0] == '_' && s[1] == '_' then Collapse(s[1..])
    else [s[0]] + Collapse(s[1..])
  }

  /**
   * Collapsing leaves no `__`, never lengthens, and keeps the first and
   * the last character.
   */
  lemma {:induction false} CollapseShape(s: string)
    ensures NoDoubleUnderscore(Collapse(s))
    ensures |Collapse(s)| <= |s|
    ensures |s| > 0 ==> |Collapse(s)| > 0 && Collapse(s)[0] == s[0] && Collapse(s)[|Collapse(s)| - 1] == s[|s| - 1]
  {
    if |s| >= 2 {
      var t := Collapse(s[1..]);
      CollapseShape(s[1..]);
      if !(s[0] == '_' && s[1] == '_') {
        var r := [s[0]] + t;
        forall i, j | 0 <= i < j < |r| && j == i + 1 ensures !(r[i] == '_' && r[j] == '_') {
          if i > 0 {
            assert r[i] == t[i - 1] && r[j] == t[j - 1];
          }
        }
      }
    }
  }

  /**
   * Collapsing only drops underscores: every character it keeps comes from
   * the input, and the input's other characters all survive in order.
   */
  lemma {:induction false} CollapseDropsOnlyUnderscores(s: string)
    ensures forall i :: 0 <= i < |Collapse(s)| ==> Collapse(s)[i] in s
    ensures WithoutUnderscores(Collapse(s)) == WithoutUnderscores(s)
  {
    if |s| >= 2 {
      CollapseDropsOnlyUnderscores(s[1..]);
      var t := Collapse(s[1..]);
      if s[0] == '_' && s[1] == '_' {
        assert WithoutUnderscores(s) == WithoutUnderscores(s[1..]);
      } else {
        assert ([s[0]] + t)[1..] == t;
        assert WithoutUnderscores([s[0]] + t) == (if s[0] == '_' then [] else [s[0]]) + WithoutUnderscores(t);
      }
    }
  }

  function TrimLeft(s: string): (r: string)
    ensures |r| <= |s|
    ensures r == [] || r[0] != '_'
  {
    if s != [] && s[0] == '_' then TrimLeft(s[1..]) else s
  }

  /** Trimming on the left drops a run of underscores and keeps the rest. */
  lemma {:induction false} TrimLeftDropsUnderscores(s: string)
    ensures TrimLeft(s) == s[|s| - |TrimLeft(s)|..]
    ensures forall i :: 0 <= i < |s| - |TrimLeft(s)| ==> s[i] == '_'
  {
    if s != [] && s[0] == '_' {
      TrimLeftDropsUnderscores(s[1..]);
    }
  }

  function TrimRight(s: string): (r: string)
    ensures |r| <= |s|
    ensures r == [] || r[|r| - 1] != '_'
    ensures r != [] ==> r[0] == s[0]
  {
    if s != [] && s[|s| - 1] == '_' then TrimRight(s[..|s| - 1]) else s
  }

  /** Trimming on the right drops a run of underscores and keeps the rest. */
  lemma {:induction false} TrimRightDropsUnderscores(s: string)
    ensures TrimRight(s) == s[..|TrimRight(s)|]
    ensures forall i :: |TrimRight(s)| <= i < |s| ==> s[i] == '_'
  {
    if s != [] && s[|s| - 1] == '_' {
      TrimRightDropsUnderscores(s[..|s| - 1]);
    }
  }

  /** `str.strip('_')`. */
  function Strip(s: string): (r: string)
    ensures r == [] || (r[0] != '_' && r[|r| - 1] != '_')
  {
    TrimRight(TrimLeft(s))
  }

  /** `normalize_class_name`. */
  function Normalize(name: string): string {
    Strip(Collapse(StripNumberSuffix(StripPrefix(Lower(name)))))
  }

  /** A slice of a string keeps the absence of `__` and of upper-case letters. */
  lemma SliceKeepsShape(s: string, i: nat, j: nat)
    requires i <= j <= |s|
    requires NoDoubleUnderscore(s) && NoUpper(s)
    ensures NoDoubleUnderscore(s[i..j]) && NoUpper(s[i..j])
  {
    assert forall k :: 0 <= k < j - i ==> s[i..j][k] == s[i + k];
  }

  /**
   * What every normalised name looks like: lower case, no leading or
   * trailing underscore, no two underscores in a row.
   */
  lemma NormalizeShape(name: string)
    ensures NoUpper(Normalize(name))
    ensures NoDoubleUnderscore(Normalize(name))
    ensures Normalize(name) == [] || (Normalize(name)[0] != '_' && Normalize(name)[|Normalize(name)| - 1] != '_')
  {
    var a := StripNumberSuffix(StripPrefix(Lower(name)));
    StrippedIsLowerCase(name);
    CollapseDropsOnlyUnderscores(a);
    CollapseShape(a);
    StripKeepsShape(Collapse(a));
  }

  lemma StrippedIsLowerCase(name: string)
    ensures NoUpper(StripNumberSuffix(StripPrefix(Lower(name))))
  {
    var p := StripPrefix(Lower(name));
    var a := StripNumberSuffix(p);
    StripNumberSuffixKeepsPrefix(p);
    StripPrefixRemovesOnePrefix(Lower(name));
    SliceKeepsLowerCase(Lower(name), |Lower(name)| - |p|, |Lower(name)|);
    SliceKeepsLowerCase(p, 0, |a|);
  }

  lemma SliceKeepsLowerCase(s: string, i: nat, j: nat)
    requires i <= j <= |s|
    requires NoUpper(s)
    ensures NoUpper(s[i..j])
  {
    assert forall k :: 0 <= k < j - i ==> s[i..j][k] == s[i + k];
  }

  lemma StripKeepsShape(c: string)
    requires NoDoubleUnderscore(c) && NoUpper(c)
    ensures NoDoubleUnderscore(Strip(c)) && NoUpper(Strip(c))
  {
    var l := TrimLeft(c);
    TrimLeftDropsUnderscores(c);
    SliceKeepsShape(c, |c| - |l|, |c|);
    var r := TrimRight(l);
    TrimRightDropsUnderscores(l);
    SliceKeepsShape(l, 0, |r|);
  }

  lemma {:induction false} LowerKeepsLowerCase(s: string)
    requires NoUpper(s)
    ensures Lower(s) == s
  {
    if s != [] {
      LowerKeepsLowerCase(s[1..]);
    }
  }

  lemma {:induction false} CollapseKeepsCollapsed(s: string)
    requires NoDoubleUnderscore(s)
    ensures Collapse(s) == s
  {
    if |s| >= 2 {
      CollapseKeepsCollapsed(s[1..]);
    }
  }

  lemma KeepsNameWithoutPrefix(s: string)
    requires s == [] || (s[0] != 'c' && s[0] != 'i')
    ensures StripPrefix(s) == s
  {
    if s != [] {
      assert !StartsWith(s, "cls_") by { if |s| >= 4 { assert s[..4][0] == s[0]; } }
      assert !StartsWith(s, "class_") by { if |s| >= 6 { assert s[..6][0] == s[0]; } }
      assert !StartsWith(s, "item_") by { if |s| >= 5 { assert s[..5][0] == s[0]; } }
    }
  }

  /** A character that is not the first of `__` is kept by collapsing. */
  lemma CollapseKeepsHead(c: char, y: string)
    requires y != [] && !(c == '_' && y[0] == '_')
    ensures Collapse([c] + y) == [c] + Collapse(y)
  {
    assert ([c] + y)[1..] == y;
  }

  /** Dropping the first character keeps the absence of `__`. */
  lemma NoDoubleUnderscoreTail(x: string)
    requires |x| >= 2 && NoDoubleUnderscore(x)
    ensures NoDoubleUnderscore(x[1..]) && !(x[0] == '_' && x[1] == '_')
  {
    var t := x[1..];
    forall i, j | 0 <= i < j < |t| && j == i + 1 ensures !(t[i] == '_' && t[j] == '_') {
      assert t[i] == x[i + 1] && t[j] == x[j + 1];
    }
  }

  /** A word with no `__` that does not end in `_` passes collapsing unchanged. */
  lemma {:induction false} CollapseKeepsWord(x: string, y: string)
    requires |x| > 0 && x[|x| - 1] != '_' && NoDoubleUnderscore(x)
    ensures Collapse(x + y) == x + Collapse(y)
  {
    if |x| == 1 {
      if y == [] {
        assert x + y == x;
      } else {
        assert x + y == [x[0]] + y;
        CollapseKeepsHead(x[0], y);
      }
    } else {
      var t := x[1..];
      NoDoubleUnderscoreTail(x);
      CollapseKeepsWord(t, y);
      var s := x + y;
      assert s[0] == x[0] && s[1] == x[1];
      assert s[1..] == t + y;
      assert Collapse(s) == [x[0]] + Collapse(t + y);
      assert x == [x[0]] + t;
    }
  }

  /**
   * A word, a run of underscores and what follows collapse to the word, one
   * underscore and the collapsed rest.
   */
  lemma CollapseJoinsWords(word: string, run: string, rest: string)
    requires word != [] && '_' !in word
    requires run != [] && forall i :: 0 <= i < |run| ==> run[i] == '_'
    requires rest != [] && rest[0] != '_'
    ensures Collapse(word + run + rest) == word + "_" + Collapse(rest)
  {
    assert NoDoubleUnderscore(word) by {
      forall i | 0 <= i < |word| - 1 ensures word[i] != '_' {
        assert word[i] in word;
      }
    }
    assert word[|word| - 1] in word;
    assert word + run + rest == word + (run + rest);
    CollapseKeepsWord(word, run + rest);
    CollapseUnderscoreRun(run + rest, |run|);
    assert (run + rest)[|run|..] == rest;
  }

  /** A run of `n` underscores followed by a non-underscore becomes one underscore. */
  lemma {:induction false} CollapseUnderscoreRun(y: string, n: nat)
    requires 0 < n < |y| && y[n] != '_'
    requires forall i :: 0 <= i < n ==> y[i] == '_'
    ensures Collapse(y) == "_" + Collapse(y[n..])
  {
    if n == 1 {
      assert y[1..] == y[n..];
    } else {
      CollapseUnderscoreRun(y[1..], n - 1);
      assert y[1..][n - 1..] == y[n..];
    }
  }

  /** A name without an underscore at either end passes `strip('_')` unchanged. */
  lemma StripKeepsUnpadded(s: string)
    requires s == [] || (s[0] != '_' && s[|s| - 1] != '_')
    ensures Strip(s) == s
  {
    assert TrimLeft(s) == s;
    assert TrimRight(s) == s;
  }

  /** Normalisation of a name that is already lower case, collapsed and unpadded. */
  lemma NormalizeAfterPrefixAndSuffix(name: string, stripped: string)
    requires NoUpper(name)
    requires StripNumberSuffix(StripPrefix(name)) == stripped
    requires NoDoubleUnderscore(stripped)
    requires stripped == [] || (stripped[0] != '_' && stripped[|stripped| - 1] != '_')
    ensures Normalize(name) == stripped
  {
    LowerKeepsLowerCase(name);
    assert StripNumberSuffix(StripPrefix(Lower(name))) == stripped;
    CollapseKeepsCollapsed(stripped);
    StripKeepsUnpadded(stripped);
  }
}

/**
 * Worked examples of normalisation, evaluated on literals.
 */
module NormalizerExamples {
  import opened Text
  import opened NameNormalizer

  /*
   * Worked examples. Each is split into a lemma that evaluates the steps on
   * the literal and a lemma that states the result for a name equal to it
   * (stating it on the literal itself makes the solver unfold every
   * recursive step eagerly).
   */

  lemma HelmetIsLowerCase() ensures NoUpper("cls_helmet_combat_01") {}
  lemma HelmetPrefix() ensures StripPrefix("cls_helmet_combat_01") == "helmet_combat_01" {}
  lemma HelmetIndex() ensures StripNumberSuffix("helmet_combat_01") == "helmet_combat" {
    assert TrailingDigits("helmet_combat_01") == 2 by {
      assert "helmet_combat_01"[..15] == "helmet_combat_0";
      assert "helmet_combat_0"[..14] == "helmet_combat_";
    }
  }
  lemma HelmetCollapsed() ensures NoDoubleUnderscore("helmet_combat") {}

  /** The project's own test: prefix and numeric index removed. */
  lemma NormalizeStripsPrefixAndIndex(name: string)
    requires name == "cls_helmet_combat_01"
    ensures Normalize(name) == "helmet_combat"
  {
    HelmetIsLowerCase();
    HelmetPrefix();
    HelmetIndex();
    HelmetCollapsed();
    NormalizeAfterPrefixAndSuffix(name, "helmet_combat");
  }

  lemma VestIsLowerCase() ensures NoUpper("item_vest_carrier") {}
  lemma VestPrefix() ensures StripPrefix("item_vest_carrier") == "vest_carrier" {
    var b := "item_vest_carrier";
    assert b[..4] != "cls_" by { assert b[..4][0] == 'i'; }
    assert b[..6] != "class_" by { assert b[..6][0] == 'i'; }
  }
  lemma VestIndex() ensures StripNumberSuffix("vest_carrier") == "vest_carrier" {}
  lemma VestCollapsed() ensures NoDoubleUnderscore("vest_carrier") {}

  /** The project's own test: the `item_` prefix is removed. */
  lemma NormalizeStripsItemPrefix(name: string)
    requires name == "item_vest_carrier"
    ensures Normalize(name) == "vest_carrier"
  {
    VestIsLowerCase();
    VestPrefix();
    VestIndex();
    VestCollapsed();
    NormalizeAfterPrefixAndSuffix(name, "vest_carrier");
  }

  lemma UniformIsLowerCase() ensures NoUpper("uniform___combat___mc") {}
  lemma UniformPrefixAndIndex()
    ensures StripNumberSuffix(StripPrefix("uniform___combat___mc")) == "uniform___combat___mc"
  {
    KeepsNameWithoutPrefix("uniform___combat___mc");
  }
  lemma UniformPieces()
    ensures "uniform___combat___mc" == "uniform" + "___" + ("combat" + "___" + "mc")
    ensures "uniform_combat_mc" == "uniform" + "_" + ("combat" + "_" + "mc")
    ensures '_' !in "uniform" && '_' !in "combat" && '_' !in "mc"
  {
  }

  lemma UniformCollapse(s: string)
    requires s == "uniform___combat___mc"
    ensures Collapse(s) == "uniform_combat_mc"
  {
    UniformPieces();
    CollapseJoinsWords("combat", "___", "mc");
    CollapseJoinsWords("uniform", "___", "combat" + "___" + "mc");
    CollapseKeepsCollapsed("mc");
  }

  lemma UniformCollapsed() ensures NoDoubleUnderscore("uniform_combat_mc") {}

  /** The project's own test: runs of underscores become one. */
  lemma NormalizeCollapsesUnderscores(name: string)
    requires name == "uniform___combat___mc"
    ensures Normalize(name) == "uniform_combat_mc"
  {
    UniformIsLowerCase();
    UniformPrefixAndIndex();
    UniformCollapse("uniform___combat___mc");
    UniformCollapsed();
    LowerKeepsLowerCase(name);
    CollapseKeepsCollapsed("uniform_combat_mc");
  }

  lemma PrefixTwiceSteps()
    ensures NoUpper("cls_cls_x") && NoUpper("cls_x")
    ensures StripNumberSuffix(StripPrefix("cls_cls_x")) == "cls_x"
    ensures StripNumberSuffix(StripPrefix("cls_x")) == "x"
    ensures NoDoubleUnderscore("cls_x") && NoDoubleUnderscore("x")
  {
    assert "cls_cls_x"[..4] == "cls_" && "cls_cls_x"[4..] == "cls_x";
    assert "cls_x"[..4] == "cls_" && "cls_x"[4..] == "x";
    assert TrailingDigits("cls_x") == 0;
    assert TrailingDigits("x") == 0;
  }

  /**
   * Normalisation is not idempotent: one pass removes only one prefix, so a
   * second pass can remove another.
   */
  lemma NormalizeNotIdempotentOnPrefix(name: string)
    requires name == "cls_cls_x"
    ensures Normalize(name) == "cls_x"
    ensures Normalize(Normalize(name)) == "x"
  {
    PrefixTwiceSteps();
    NormalizeAfterPrefixAndSuffix(name, "cls_x");
    NormalizeAfterPrefixAndSuffix("cls_x", "x");
  }

  lemma IndexTwiceSteps()
    ensures NoUpper("x_1_2") && NoUpper("x_1")
    ensures StripNumberSuffix(StripPrefix("x_1_2")) == "x_1"
    ensures StripNumberSuffix(StripPrefix("x_1")) == "x"
    ensures NoDoubleUnderscore("x_1") && NoDoubleUnderscore("x")
  {
    KeepsNameWithoutPrefix("x_1_2");
    KeepsNameWithoutPrefix("x_1");
    assert TrailingDigits("x_1_2") == 1 by {
      assert "x_1_2"[..4] == "x_1_";
    }
    assert TrailingDigits("x_1") == 1 by {
      assert "x_1"[..2] == "x_";
    }
  }

  /**
   * Normalisation is not idempotent: one pass removes only the last
   * `_<digits>`, so a second pass can remove the one before it.
   */
  lemma NormalizeNotIdempotentOnIndex(name: string)
    requires name == "x_1_2"
    ensures Normalize(name) == "x_1"
    ensures Normalize(Normalize(name)) == "x"
  {
    IndexTwiceSteps();
    NormalizeAfterPrefixAndSuffix(name, "x_1");
    NormalizeAfterPrefixAndSuffix("x_1", "x");
  }
}
