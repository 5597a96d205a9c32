/**
 * `normalize_text` (hkjc_scraper/utils.py): every cell and label text passes
 * through it before it is compared or stored.  The three steps of the source
 * are kept apart: replace the literal written at utils.py:39, collapse every
 * run of whitespace into one blank, strip both ends.
 */
module Normalize {
  import opened Strings

  /** Python's `str.isspace()` set, which is also what `\s` and `strip()` use on `str`. */
  predicate IsSpace(c: char)
  {
    ('\t' <= c <= '\r') || ('\U{1C}' <= c <= '\U{1F}') || c == ' ' || c == '\U{85}' || c == '\U{A0}'
    || c == '\U{1680}' || ('\U{2000}' <= c <= '\U{200A}') || c == '\U{2028}' || c == '\U{2029}'
    || c == '\U{202F}' || c == '\U{205F}' || c == '\U{3000}'
  }

  /** The literal that utils.py:39 replaces: the three characters U+00E3 U+20AC U+20AC. */
  const Literal: string := ['\U{E3}', '\U{20AC}', '\U{20AC}']

  predicate LiteralAt(s: string, i: int)
    requires 0 <= i
  {
    i + 2 < |s| && s[i] == '\U{E3}' && s[i + 1] == '\U{20AC}' && s[i + 2] == '\U{20AC}'
  }

  /** `text.replace(Literal, " ")`: non-overlapping, left to right. */
  function ReplaceLiteral(s: string): string
    decreases |s|
  {
    if |s| == 0 then ""
    else if LiteralAt(s, 0) then " " + ReplaceLiteral(s[3..])
    else [s[0]] + ReplaceLiteral(s[1..])
  }

  /** `re.sub(r"\s+", " ", text)`: `afterSpace` says the previous input character was whitespace. */
  function Collapse(s: string, afterSpace: bool): string
    decreases |s|
  {
    if |s| == 0 then ""
    else if IsSpace(s[0]) then (if afterSpace then "" else " ") + Collapse(s[1..], true)
    else [s[0]] + Collapse(s[1..], false)
  }

  function StripLeft(s: string): string
  {
    if |s| > 0 && IsSpace(s[0]) then StripLeft(s[1..]) else s
  }

  function StripRight(s: string): string
  {
    if |s| > 0 && IsSpace(s[|s| - 1]) then StripRight(s[..|s| - 1]) else s
  }

  /** Python's `text.strip()`. */
  function Strip(s: string): string { StripRight(StripLeft(s)) }

  /** Whitespace is only ever a plain blank, never two in a row, and the literal does not occur. */
  predicate Tidy(s: string)
  {
    && (forall i :: 0 <= i < |s| && IsSpace(s[i]) ==> s[i] == ' ')
    && (forall i :: 0 <= i < |s| - 1 ==> !(IsSpace(s[i]) && IsSpace(s[i + 1])))
    && (forall i :: 0 <= i < |s| ==> !LiteralAt(s, i))
  }

  /** What `normalize_text` promises of its result. */
  predicate IsNormalized(s: string)
  {
    Tidy(s) && (|s| > 0 ==> !IsSpace(s[0]) && !IsSpace(s[|s| - 1]))
  }

  /** `normalize_text(text)` for a string argument. */
  function NormalizeText(text: string): string
  {
    if text == "" then "" else Strip(Collapse(ReplaceLiteral(text), false))
  }

  // ---------------------------------------------------------------------------
  // Properties

  /** The result is normalized: no whitespace at either end, none but single blanks inside, and no
      literal left. */
  lemma NormalizeTextSpec(text: string)
    ensures IsNormalized(NormalizeText(text))
  {
    if text != "" {
      var replaced := ReplaceLiteral(text);
      ReplacedHasNoLiteral(text);
      CollapseIsTidy(replaced, false);
      StripIsNormalized(Collapse(replaced, false));
    }
  }

  /** A second pass changes nothing. */
  lemma NormalizeIdempotent(text: string)
    ensures NormalizeText(NormalizeText(text)) == NormalizeText(text)
  {
    NormalizeTextSpec(text);
    NormalizedIsFixpoint(NormalizeText(text));
  }

  /** A normalized string is left as it is. */
  lemma NormalizedIsFixpoint(s: string)
    requires IsNormalized(s)
    ensures NormalizeText(s) == s
  {
    if s != "" {
      ReplaceWithoutLiteral(s);
      CollapseTidy(s, false);
    }
  }

  /** Normalization drops whitespace only: the non-whitespace characters (after the literal is replaced) survive in order. */
  lemma NormalizeKeepsContent(text: string)
    ensures NonSpace(NormalizeText(text)) == NonSpace(ReplaceLiteral(text))
  {
    if text != "" {
      var replaced := ReplaceLiteral(text);
      CollapseKeepsContent(replaced, false);
      StripKeepsContent(Collapse(replaced, false));
    }
  }

  /** The characters that are not whitespace, in order. */
  function NonSpace(s: string): string
  {
    if |s| == 0 then "" else (if IsSpace(s[0]) then "" else [s[0]]) + NonSpace(s[1..])
  }

  /** The text every caller reads from an element: `normalize_text(extract_text_safe(element))`, where
      `extract_text_safe` has already normalized the inner text (utils.py:116-124).  The second pass
      changes nothing. */
  function CellText(raw: string): (r: string)
    ensures r == NormalizeText(raw)
  {
    NormalizeIdempotent(raw);
    NormalizeText(NormalizeText(raw))
  }

  // ---------------------------------------------------------------------------
  // Step lemmas

  lemma {:induction false} ReplacedHasNoLiteral(s: string)
    ensures forall i :: 0 <= i < |ReplaceLiteral(s)| ==> !LiteralAt(ReplaceLiteral(s), i)
    decreases |s|
  {
    if |s| == 0 {
    } else if LiteralAt(s, 0) {
      ReplacedHasNoLiteral(s[3..]);
      var r := ReplaceLiteral(s);
      forall i | 0 <= i < |r| ensures !LiteralAt(r, i) {
        if i > 0 { assert LiteralAt(r, i) ==> LiteralAt(ReplaceLiteral(s[3..]), i - 1); }
      }
    } else {
      var t := s[1..];
      ReplacedHasNoLiteral(t);
      var r := ReplaceLiteral(s);
      assert r == [s[0]] + ReplaceLiteral(t);
      forall i | 0 <= i < |r| ensures !LiteralAt(r, i) {
        if i > 0 {
          assert LiteralAt(r, i) ==> LiteralAt(ReplaceLiteral(t), i - 1);
        } else if LiteralAt(r, 0) {
          ReplaceHead(t);
          assert ReplaceLiteral(t) == [t[0]] + ReplaceLiteral(t[1..]);
          ReplaceHead(t[1..]);
          assert false;
        }
      }
    }
  }

  lemma ReplaceHead(t: string)
    requires |ReplaceLiteral(t)| > 0
    ensures |t| > 0
    ensures ReplaceLiteral(t)[0] == if LiteralAt(t, 0) then ' ' else t[0]
  {
  }

  lemma {:induction false} ReplaceWithoutLiteral(s: string)
    requires forall i :: 0 <= i < |s| ==> !LiteralAt(s, i)
    ensures ReplaceLiteral(s) == s
    decreases |s|
  {
    if |s| > 0 {
      assert !LiteralAt(s, 0);
      forall i | 0 <= i < |s[1..]| ensures !LiteralAt(s[1..], i) {
        assert LiteralAt(s[1..], i) ==> LiteralAt(s, i + 1);
      }
      ReplaceWithoutLiteral(s[1..]);
    }
  }

  lemma CollapseHead(t: string)
    requires |Collapse(t, false)| > 0 && !IsSpace(Collapse(t, false)[0])
    ensures |t| > 0 && !IsSpace(t[0]) && Collapse(t, false) == [t[0]] + Collapse(t[1..], false)
  {
  }

  lemma {:induction false} CollapseIsTidy(s: string, afterSpace: bool)
    requires forall i :: 0 <= i < |s| ==> !LiteralAt(s, i)
    ensures Tidy(Collapse(s, afterSpace))
    ensures afterSpace && |Collapse(s, afterSpace)| > 0 ==> !IsSpace(Collapse(s, afterSpace)[0])
    decreases |s|
  {
    if |s| > 0 {
      assert !LiteralAt(s, 0);
      var t := s[1..];
      forall i | 0 <= i < |t| ensures !LiteralAt(t, i) {
        assert LiteralAt(t, i) ==> LiteralAt(s, i + 1);
      }
      var r := Collapse(s, afterSpace);
      if IsSpace(s[0]) {
        CollapseIsTidy(t, true);
        var c := Collapse(t, true);
        assert r == (if afterSpace then "" else " ") + c;
        forall i | 0 <= i < |r| ensures !LiteralAt(r, i) {
          if afterSpace {
            assert LiteralAt(r, i) == LiteralAt(c, i);
          } else if i > 0 {
            assert LiteralAt(r, i) ==> LiteralAt(c, i - 1);
          } else {
            assert r[0] == ' ';
          }
        }
        if !afterSpace {
          forall i | 0 <= i < |r| - 1 ensures !(IsSpace(r[i]) && IsSpace(r[i + 1])) {
            if i > 0 { assert r[i] == c[i - 1] && r[i + 1] == c[i]; }
          }
        }
      } else {
        CollapseIsTidy(t, false);
        var c := Collapse(t, false);
        assert r == [s[0]] + c;
        forall i | 0 <= i < |r| ensures !LiteralAt(r, i) {
          if i > 0 {
            assert LiteralAt(r, i) ==> LiteralAt(c, i - 1);
          } else if LiteralAt(r, 0) {
            CollapseHead(t);
            CollapseHead(t[1..]);
            assert false;
          }
        }
        forall i | 0 <= i < |r| - 1 ensures !(IsSpace(r[i]) && IsSpace(r[i + 1])) {
          if i > 0 { assert r[i] == c[i - 1] && r[i + 1] == c[i]; }
        }
      }
    }
  }

  lemma TidySlice(s: string, a: nat, b: nat)
    requires Tidy(s) && a <= b <= |s|
    ensures Tidy(s[a..b])
    ensures b == |s| ==> Tidy(s[a..])
  {
    assert b == |s| ==> s[a..b] == s[a..];
    var t := s[a..b];
    forall i | 0 <= i < |t| ensures !LiteralAt(t, i) {
      assert LiteralAt(t, i) ==> LiteralAt(s, a + i);
    }
    forall i | 0 <= i < |t| - 1 ensures !(IsSpace(t[i]) && IsSpace(t[i + 1])) {
      assert t[i] == s[a + i] && t[i + 1] == s[a + i + 1];
    }
  }

  lemma {:induction false} StripLeftIsSuffix(s: string) returns (k: nat)
    ensures k <= |s| && StripLeft(s) == s[k..]
    ensures |StripLeft(s)| > 0 ==> !IsSpace(StripLeft(s)[0])
    decreases |s|
  {
    if |s| > 0 && IsSpace(s[0]) {
      var j := StripLeftIsSuffix(s[1..]);
      k := j + 1;
      assert s[1..][j..] == s[k..];
    } else {
      k := 0;
    }
  }

  lemma {:induction false} StripRightIsPrefix(s: string) returns (k: nat)
    ensures k <= |s| && StripRight(s) == s[..k]
    ensures |StripRight(s)| > 0 ==> !IsSpace(StripRight(s)[|StripRight(s)| - 1])
    decreases |s|
  {
    if |s| > 0 && IsSpace(s[|s| - 1]) {
      k := StripRightIsPrefix(s[..|s| - 1]);
      assert s[..|s| - 1][..k] == s[..k];
    } else {
      k := |s|;
    }
  }

  lemma StripIsNormalized(s: string)
    requires Tidy(s)
    ensures IsNormalized(Strip(s))
  {
    var a := StripLeftIsSuffix(s);
    TidySlice(s, a, |s|);
    var l := StripLeft(s);
    var b := StripRightIsPrefix(l);
    TidySlice(l, 0, b);
    if |Strip(s)| > 0 {
      assert Strip(s)[0] == l[0];
    }
  }

  lemma {:induction false} CollapseTidy(s: string, afterSpace: bool)
    requires Tidy(s)
    requires afterSpace && |s| > 0 ==> !IsSpace(s[0])
    ensures Collapse(s, afterSpace) == s
    decreases |s|
  {
    if |s| > 0 {
      TidySlice(s, 1, |s|);
      CollapseTidy(s[1..], IsSpace(s[0]));
    }
  }

  lemma {:induction false} NonSpaceConcat(a: string, b: string)
    ensures NonSpace(a + b) == NonSpace(a) + NonSpace(b)
    decreases |a|
  {
    if |a| > 0 {
      assert (a + b)[0] == a[0] && (a + b)[1..] == a[1..] + b;
      NonSpaceConcat(a[1..], b);
      var h := if IsSpace(a[0]) then "" else [a[0]];
      calc {
        NonSpace(a + b);
        h + NonSpace(a[1..] + b);
        h + (NonSpace(a[1..]) + NonSpace(b));
        (h + NonSpace(a[1..])) + NonSpace(b);
      }
    } else {
      assert a + b == b;
    }
  }

  lemma {:induction false} CollapseKeepsContent(s: string, afterSpace: bool)
    ensures NonSpace(Collapse(s, afterSpace)) == NonSpace(s)
    decreases |s|
  {
    if |s| > 0 {
      var rest := Collapse(s[1..], IsSpace(s[0]));
      CollapseKeepsContent(s[1..], IsSpace(s[0]));
      var head := if IsSpace(s[0]) then (if afterSpace then "" else " ") else [s[0]];
      NonSpaceConcat(head, rest);
    }
  }

  lemma {:induction false} StripLeftKeepsContent(s: string)
    ensures NonSpace(StripLeft(s)) == NonSpace(s)
    decreases |s|
  {
    if |s| > 0 && IsSpace(s[0]) { StripLeftKeepsContent(s[1..]); }
  }

  lemma {:induction false} StripRightKeepsContent(s: string)
    ensures NonSpace(StripRight(s)) == NonSpace(s)
    decreases |s|
  {
    if |s| > 0 && IsSpace(s[|s| - 1]) {
      var p := s[..|s| - 1];
      StripRightKeepsContent(p);
      assert s == p + [s[|s| - 1]];
      NonSpaceConcat(p, [s[|s| - 1]]);
    }
  }

  lemma StripKeepsContent(s: string)
    ensures NonSpace(Strip(s)) == NonSpace(s)
  {
    StripLeftKeepsContent(s);
    StripRightKeepsContent(StripLeft(s));
  }
}
