/**
 * Character classes and case mapping used by every text engine.
 *
 * Letters, digits and case are those of ASCII; white space is the exact
 * list of code points that .NET's char.IsWhiteSpace accepts. Culture-specific
 * casing is not modelled: upper- and lower-casing, invariant or not, map
 * only the ASCII letters.
 */
module Chars {

  predicate IsUpper(c: char) { 'A' <= c <= 'Z' }

  predicate IsLower(c: char) { 'a' <= c <= 'z' }

  predicate IsLetter(c: char) { IsUpper(c) || IsLower(c) }

  predicate IsDigit(c: char) { '0' <= c <= '9' }

  predicate IsLetterOrDigit(c: char) { IsLetter(c) || IsDigit(c) }

  /** The space separators, line and paragraph separators, U+0009..U+000D and U+0085. */
  predicate IsWhiteSpace(c: char)
  {
    c == ' ' || '\t' <= c <= '\r' || c == '\U{0085}' || c == '\U{00A0}' || c == '\U{1680}'
    || '\U{2000}' <= c <= '\U{200A}' || c == '\U{2028}' || c == '\U{2029}'
    || c == '\U{202F}' || c == '\U{205F}' || c == '\U{3000}'
  }

  /** The straight apostrophe and the right single quotation mark. */
  predicate IsApostrophe(c: char) { c == '\'' || c == '\U{2019}' }

  function ToUpper(c: char): (r: char)
    ensures IsLetter(c) ==> IsUpper(r)
    ensures !IsLower(c) ==> r == c
  {
    if IsLower(c) then (c as int - 32) as char else c
  }

  function ToLower(c: char): (r: char)
    ensures IsLetter(c) ==> IsLower(r)
    ensures !IsUpper(c) ==> r == c
  {
    if IsUpper(c) then (c as int + 32) as char else c
  }

  /** Folding a character for a case-insensitive comparison. */
  lemma FoldOfCase(c: char)
    ensures ToLower(ToUpper(c)) == ToLower(c) && ToLower(ToLower(c)) == ToLower(c)
    ensures IsLetter(ToUpper(c)) == IsLetter(c) && IsLetter(ToLower(c)) == IsLetter(c)
  {
  }

  function Lower(s: string): (r: string)
    ensures |r| == |s|
    ensures forall k :: 0 <= k < |s| ==> r[k] == ToLower(s[k])
  {
    seq(|s|, k requires 0 <= k < |s| => ToLower(s[k]))
  }

  function Upper(s: string): (r: string)
    ensures |r| == |s|
    ensures forall k :: 0 <= k < |s| ==> r[k] == ToUpper(s[k])
  {
    seq(|s|, k requires 0 <= k < |s| => ToUpper(s[k]))
  }

  /** a and b differ at most in the case of their letters. */
  predicate CaseVariant(a: string, b: string)
  {
    |a| == |b| && forall k :: 0 <= k < |a| ==> ToLower(a[k]) == ToLower(b[k])
  }

  /** A case-insensitive comparison (OrdinalIgnoreCase) is a comparison of the folded strings. */
  predicate EqualsIgnoreCase(a: string, b: string) { Lower(a) == Lower(b) }

  lemma CaseVariantIsEqualsIgnoreCase(a: string, b: string)
    ensures CaseVariant(a, b) <==> EqualsIgnoreCase(a, b)
  {
    if CaseVariant(a, b) {
      assert Lower(a) == Lower(b);
    }
    if EqualsIgnoreCase(a, b) {
      assert |Lower(a)| == |Lower(b)|;
      forall k | 0 <= k < |a| ensures ToLower(a[k]) == ToLower(b[k]) {
        assert Lower(a)[k] == Lower(b)[k];
      }
    }
  }

  /** A case variant keeps every character that is not a letter where it was. */
  lemma CaseVariantKeepsNonLetters(a: string, b: string, k: int)
    requires CaseVariant(a, b) && 0 <= k < |a| && !IsLetter(b[k])
    ensures a[k] == b[k]
  {
    assert ToLower(a[k]) == b[k];
  }

  lemma CaseVariantConcat(a: string, b: string, c: string, d: string)
    requires CaseVariant(a, b) && CaseVariant(c, d)
    ensures CaseVariant(a + c, b + d)
  {
    assert |a + c| == |b + d|;
    forall k | 0 <= k < |a + c| ensures ToLower((a + c)[k]) == ToLower((b + d)[k]) {
      if k < |a| {
        assert (a + c)[k] == a[k] && (b + d)[k] == b[k];
      } else {
        assert (a + c)[k] == c[k - |a|] && (b + d)[k] == d[k - |a|];
      }
    }
  }

  /** Two characters equal up to case are letters alike, fold alike, and are equal when they are not letters. */
  lemma SameFold(x: char, y: char)
    requires ToLower(x) == ToLower(y)
    ensures IsLetter(x) == IsLetter(y) && IsLetterOrDigit(x) == IsLetterOrDigit(y)
    ensures !IsLetter(x) ==> x == y
    ensures ToUpper(x) == ToUpper(y)
  {
  }

  /** Case variants agree on every character class that ignores case, and fold to the same texts. */
  lemma CaseVariantFacts(a: string, b: string)
    requires CaseVariant(a, b)
    ensures forall k :: 0 <= k < |a| ==> IsLetter(a[k]) == IsLetter(b[k]) && IsLetterOrDigit(a[k]) == IsLetterOrDigit(b[k])
    ensures forall k :: 0 <= k < |a| && !IsLetter(b[k]) ==> a[k] == b[k]
    ensures Lower(a) == Lower(b) && Upper(a) == Upper(b)
  {
    forall k | 0 <= k < |a|
      ensures IsLetter(a[k]) == IsLetter(b[k]) && IsLetterOrDigit(a[k]) == IsLetterOrDigit(b[k])
      ensures !IsLetter(b[k]) ==> a[k] == b[k]
      ensures ToUpper(a[k]) == ToUpper(b[k])
    {
      SameFold(a[k], b[k]);
    }
  }

  lemma CaseVariantSymmetric(a: string, b: string)
    requires CaseVariant(a, b)
    ensures CaseVariant(b, a)
  {
  }

  lemma LowerUpperAreCaseVariants(s: string)
    ensures CaseVariant(Lower(s), s) && CaseVariant(Upper(s), s)
  {
    forall k | 0 <= k < |s| ensures ToLower(Lower(s)[k]) == ToLower(s[k]) && ToLower(Upper(s)[k]) == ToLower(s[k]) {
      FoldOfCase(s[k]);
    }
  }

  lemma LowerConcat(a: string, b: string)
    ensures Lower(a + b) == Lower(a) + Lower(b)
  {
    assert |Lower(a + b)| == |Lower(a) + Lower(b)|;
    forall k | 0 <= k < |a + b| ensures Lower(a + b)[k] == (Lower(a) + Lower(b))[k] {
      if k < |a| { assert (a + b)[k] == a[k]; } else { assert (a + b)[k] == b[k - |a|]; }
    }
  }

  lemma UpperConcat(a: string, b: string)
    ensures Upper(a + b) == Upper(a) + Upper(b)
  {
    assert |Upper(a + b)| == |Upper(a) + Upper(b)|;
    forall k | 0 <= k < |a + b| ensures Upper(a + b)[k] == (Upper(a) + Upper(b))[k] {
      if k < |a| { assert (a + b)[k] == a[k]; } else { assert (a + b)[k] == b[k - |a|]; }
    }
  }

  // ---------------------------------------------------------------- slices

  /** Two neighbouring slices make up the slice that spans both. */
  lemma SliceSplit(s: string, i: int, e: int)
    requires 0 <= i <= e <= |s|
    ensures s[i..e] + s[e..] == s[i..]
  {
  }

  lemma PrefixSplit(s: string, i: int, j: int)
    requires 0 <= i <= j <= |s|
    ensures s[..i] + s[i..j] == s[..j]
  {
  }

  /** A non-empty slice is its first character followed by the rest. */
  lemma SliceCons(s: string, i: int)
    requires 0 <= i < |s|
    ensures [s[i]] + s[i + 1..] == s[i..]
  {
  }

  lemma ConcatAssoc(a: string, b: string, c: string, d: string)
    ensures a + (b + c + d) == a + b + c + d
  {
  }

  lemma Snoc(s: string)
    requires |s| > 0
    ensures s[..|s| - 1] + [s[|s| - 1]] == s
  {
  }
}
