/**
 * `_header_matches` of hkjc_scraper/selectors.py: the fuzzy comparison of an
 * expected header label with the text of a header cell, in four tiers —
 * equality, containment either way, equality after dropping the characters
 * that are not `\w`, and a comparison of the CJK characters (U+4E00..U+9FFF)
 * alone: containment either way, or a shared two-character window.
 */
module HeaderMatch {
  import opened Strings

  predicate IsCJK(c: char) { '\U{4E00}' <= c <= '\U{9FFF}' }

  /** `\w`: ASCII letters and digits, the underscore, and the CJK ideographs. */
  predicate IsWord(c: char)
  {
    'a' <= c <= 'z' || 'A' <= c <= 'Z' || '0' <= c <= '9' || c == '_' || IsCJK(c)
  }

  /** `re.sub(r'[^\w]', '', s)`. */
  function WordChars(s: string): (r: string)
    ensures forall k :: 0 <= k < |r| ==> IsWord(r[k])
  {
    if |s| == 0 then "" else (if IsWord(s[0]) then [s[0]] else "") + WordChars(s[1..])
  }

  /** `re.sub(r'[^一-鿿]', '', s)`. */
  function CJKCore(s: string): (r: string)
    ensures forall k :: 0 <= k < |r| ==> IsCJK(r[k])
  {
    if |s| == 0 then "" else (if IsCJK(s[0]) then [s[0]] else "") + CJKCore(s[1..])
  }

  /** The window loop at selectors.py:117-120: some `e[i:i+2]` occurs in `a`. */
  predicate AnyBigramIn(e: string, a: string)
    decreases |e|
  {
    |e| >= 2 && (Contains(a, e[..2]) || AnyBigramIn(e[1..], a))
  }

  /** The CJK tier, selectors.py:111-120. */
  predicate CoresMatch(ec: string, ac: string)
  {
    ec != "" && ac != "" &&
    (Contains(ac, ec) || Contains(ec, ac) || (|ec| >= 2 && |ac| >= 2 && AnyBigramIn(ec, ac)))
  }

  /** `_header_matches(expected, actual)`, selectors.py:89-122. */
  predicate HeaderMatches(expected: string, actual: string)
  {
    expected == actual
    || Contains(actual, expected) || Contains(expected, actual)
    || WordChars(expected) == WordChars(actual)
    || CoresMatch(CJKCore(expected), CJKCore(actual))
  }

  // ---------------------------------------------------------------------------
  // Properties

  /** The window of `e` at `i` occurs in `a`. */
  predicate BigramAt(e: string, a: string, i: int)
  {
    0 <= i < |e| - 1 && Contains(a, e[i..i + 2])
  }

  /** The window search finds exactly the windows that occur. */
  lemma {:induction false} AnyBigramInIff(e: string, a: string)
    ensures AnyBigramIn(e, a) <==> exists i :: BigramAt(e, a, i)
    decreases |e|
  {
    if |e| >= 2 {
      AnyBigramInIff(e[1..], a);
      if exists i :: BigramAt(e, a, i) {
        var i :| BigramAt(e, a, i);
        if i > 0 {
          assert e[1..][i - 1..i + 1] == e[i..i + 2];
          assert BigramAt(e[1..], a, i - 1);
        } else {
          assert e[0..2] == e[..2];
        }
      }
      if Contains(a, e[..2]) {
        assert e[0..2] == e[..2];
        assert BigramAt(e, a, 0);
      }
      if AnyBigramIn(e[1..], a) {
        var i :| BigramAt(e[1..], a, i);
        assert e[1..][i..i + 2] == e[i + 1..i + 3];
        assert BigramAt(e, a, i + 1);
      }
    }
  }

  /** A window of `e` that occurs in `a` is also a window of `a` that occurs in `e`. */
  lemma BigramSymmetric(e: string, a: string)
    requires AnyBigramIn(e, a)
    ensures AnyBigramIn(a, e)
  {
    AnyBigramInIff(e, a);
    AnyBigramInIff(a, e);
    var i :| BigramAt(e, a, i);
    var j := ContainsIndex(a, e[i..i + 2]);
    ContainsAt(e, a[j..j + 2], i);
    assert BigramAt(a, e, j);
  }

  /** The comparison does not depend on which side is the expected label. */
  lemma HeaderMatchesSymmetric(expected: string, actual: string)
    ensures HeaderMatches(expected, actual) <==> HeaderMatches(actual, expected)
  {
    var ec, ac := CJKCore(expected), CJKCore(actual);
    if |ec| >= 2 && |ac| >= 2 {
      if AnyBigramIn(ec, ac) {
        BigramSymmetric(ec, ac);
      }
      if AnyBigramIn(ac, ec) {
        BigramSymmetric(ac, ec);
      }
    }
  }

  /** An empty text matches every label and every label matches an empty text (selectors.py:96). */
  lemma EmptyMatchesEverything(expected: string)
    ensures HeaderMatches(expected, "") && HeaderMatches("", expected)
  {
    assert "" <= expected;
  }

  /** The matching header comparisons of tests/test_parsing_unit.py:150-160. */
  lemma HeaderExamplesMatch()
    ensures HeaderMatches("馬號", "馬號") && HeaderMatches("馬名", "馬名")
    ensures HeaderMatches("馬號", "馬號 (Horse No.)") && HeaderMatches("馬名", "馬名 (Horse Name)")
  {
    assert "馬號" <= "馬號 (Horse No.)";
    assert "馬名" <= "馬名 (Horse Name)";
  }

  /** The first pair the same test expects to be told apart: no character in common. */
  lemma HorseNoNotJockey()
    ensures !HeaderMatches("馬號", "騎師")
  {
    NoMatchBetween("馬號", "騎師");
  }

  /** The second pair: it shares the character 馬 but no two-character window. */
  lemma HorseNameNotTrainer()
    ensures !HeaderMatches("馬名", "練馬師")
  {
    var e, a := "馬名", "練馬師";
    AllCJKKept(e);
    AllCJKKept(a);
    NameNotInTrainer(e, a);
    assert e[1..] == "名";
    assert !AnyBigramIn(e[1..], a);
  }

  lemma NameNotInTrainer(e: string, a: string)
    requires e == "馬名" && a == "練馬師"
    ensures !Contains(a, e) && !Contains(e, a)
  {
    forall i | 0 <= i ensures !OccursAt(a, e, i) {
      if i + 2 <= 3 {
        assert a[i + 1] != e[1];
      }
    }
    NotContains(a, e);
    forall i | 0 <= i ensures !OccursAt(e, a, i) { }
    NotContains(e, a);
  }

  /** Two labels made of CJK ideographs with no character in common never match. */
  lemma NoMatchBetween(e: string, a: string)
    requires e != "" && a != ""
    requires forall k :: 0 <= k < |e| ==> IsCJK(e[k])
    requires forall k :: 0 <= k < |a| ==> IsCJK(a[k])
    requires forall i, j :: 0 <= i < |e| && 0 <= j < |a| ==> e[i] != a[j]
    ensures !HeaderMatches(e, a)
  {
    AllCJKKept(e);
    AllCJKKept(a);
    NoCommonChar(a, e);
    NoCommonChar(e, a);
    if |e| >= 2 {
      AnyBigramInIff(e, a);
      forall i | BigramAt(e, a, i)
        ensures false
      {
        NoCommonChar(a, e[i..i + 2]);
      }
    }
  }

  lemma {:induction false} AllCJKKept(s: string)
    requires forall k :: 0 <= k < |s| ==> IsCJK(s[k])
    ensures CJKCore(s) == s && WordChars(s) == s
  {
    if |s| > 0 {
      AllCJKKept(s[1..]);
      assert [s[0]] + s[1..] == s;
    }
  }

  predicate OccursAt(s: string, sub: string, i: nat)
  {
    i + |sub| <= |s| && s[i..i + |sub|] == sub
  }

  /** `sub` does not occur in `s` when it occurs at no position. */
  lemma NotContains(s: string, sub: string)
    requires forall i: nat :: !OccursAt(s, sub, i)
    ensures !Contains(s, sub)
  {
    if Contains(s, sub) {
      var j := ContainsIndex(s, sub);
      assert OccursAt(s, sub, j);
      assert false;
    }
  }

  /** A non-empty `sub` sharing no character with `s` does not occur in it. */
  lemma NoCommonChar(s: string, sub: string)
    requires sub != ""
    requires forall i, j :: 0 <= i < |s| && 0 <= j < |sub| ==> s[i] != sub[j]
    ensures !Contains(s, sub)
  {
    forall i: nat ensures !OccursAt(s, sub, i) {
      if i + |sub| <= |s| {
        assert s[i..i + |sub|][0] == s[i];
      }
    }
    NotContains(s, sub);
  }
}
