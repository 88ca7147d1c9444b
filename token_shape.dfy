/**
 * Token-shape helpers that the sentence-case and the title-case converters
 * both define, with the same code: capitalisation after apostrophes and the
 * camel/mixed-case heuristic.
 */
module TokenShape {
  import opened Chars

  // ---------------------------------------------------------------- capitalisation after apostrophes

  /** The letter at k is capitalised: it starts the token or follows an apostrophe. */
  predicate CapitalisedAt(t: string, k: int)
    requires 0 <= k < |t|
  {
    k == 0 || IsApostrophe(t[k - 1])
  }

  /** The token with every letter lower-cased except those in a capitalised position. */
  function CapApostrophes(t: string): string
  {
    seq(|t|, k requires 0 <= k < |t| =>
      if !IsLetter(t[k]) then t[k] else if CapitalisedAt(t, k) then ToUpper(t[k]) else ToLower(t[k]))
  }

  /**
   * CapTokenWithApostrophes rewrites a character array in place, carrying a
   * capNext flag that a letter clears and any other character sets exactly
   * when it is an apostrophe.
   */
  method CapTokenWithApostrophes(token: string) returns (r: string)
    ensures r == CapApostrophes(token)
  {
    if |token| == 0 {
      return token;
    }
    var chars := new char[|token|](k requires 0 <= k < |token| => token[k]);
    var capNext := true;
    var i := 0;
    while i < chars.Length
      invariant 0 <= i <= chars.Length == |token|
      invariant forall k :: 0 <= k < i ==> chars[k] == CapApostrophes(token)[k]
      invariant forall k :: i <= k < |token| ==> chars[k] == token[k]
      invariant capNext == (i == 0 || IsApostrophe(token[i - 1]))
    {
      var ch := chars[i];
      if IsLetter(ch) {
        chars[i] := if capNext then ToUpper(ch) else ToLower(ch);
        capNext := false;
      } else {
        capNext := ch == '\'' || ch == '\U{2019}';
      }
      i := i + 1;
    }
    r := chars[..];
  }

  /**
   * Capitalisation keeps the length and every non-letter, upper-cases exactly the
   * letters at the start or after an apostrophe, and lower-cases the others.
   */
  lemma CapApostrophesShape(t: string)
    ensures |CapApostrophes(t)| == |t|
    ensures CaseVariant(CapApostrophes(t), t)
    ensures forall k :: 0 <= k < |t| && !IsLetter(t[k]) ==> CapApostrophes(t)[k] == t[k]
    ensures forall k :: 0 <= k < |t| && IsLetter(t[k]) ==> (IsUpper(CapApostrophes(t)[k]) <==> CapitalisedAt(t, k))
  {
    var r := CapApostrophes(t);
    forall k | 0 <= k < |t| ensures ToLower(r[k]) == ToLower(t[k]) {
      FoldOfCase(t[k]);
    }
  }

  /** Capitalising after apostrophes looks only at the letters' positions, not their case. */
  lemma CapApostrophesIgnoresCase(a: string, b: string)
    requires CaseVariant(a, b)
    ensures CapApostrophes(a) == CapApostrophes(b)
  {
    CaseVariantFacts(a, b);
    forall k | 0 <= k < |a|
      ensures CapApostrophes(a)[k] == CapApostrophes(b)[k]
    {
      SameFold(a[k], b[k]);
      if k > 0 {
        SameFold(a[k - 1], b[k - 1]);
      }
    }
  }

  /** Capitalising after apostrophes a second time changes nothing. */
  lemma CapApostrophesIdempotent(t: string)
    ensures CapApostrophes(CapApostrophes(t)) == CapApostrophes(t)
  {
    CapApostrophesShape(t);
    CapApostrophesIgnoresCase(CapApostrophes(t), t);
  }

  /** "o'neill" becomes "O'Neill". */
  lemma CapApostrophesSurname()
    ensures CapApostrophes("o'neill") == "O'Neill"
  {
  }

  /** "don't" becomes "Don'T": every letter after an apostrophe is capitalised, contractions included. */
  lemma CapApostrophesContraction()
    ensures CapApostrophes("don't") == "Don'T"
  {
  }

  // ---------------------------------------------------------------- camel and mixed case

  /** The letters of t, in order. */
  function Letters(t: string): (r: string)
    ensures |r| <= |t|
    ensures forall k :: 0 <= k < |r| ==> IsLetter(r[k])
  {
    if t == [] then []
    else Letters(t[..|t| - 1]) + (if IsLetter(t[|t| - 1]) then [t[|t| - 1]] else [])
  }

  /** The number of neighbouring pairs in L whose case differs. */
  function Transitions(L: string): nat
  {
    if |L| <= 1 then 0
    else Transitions(L[..|L| - 1]) + (if IsUpper(L[|L| - 2]) != IsUpper(L[|L| - 1]) then 1 else 0)
  }

  predicate HasUpper(t: string) { exists k :: 0 <= k < |t| && IsUpper(t[k]) }

  predicate HasLower(t: string) { exists k :: 0 <= k < |t| && IsLower(t[k]) }

  /** An inner capital next to a lower-case letter: iPhone, eBay, macOS. */
  predicate InnerCapital(t: string)
  {
    exists k :: 1 <= k < |t| - 1 && InnerCapitalAt(t, k)
  }

  predicate InnerCapitalAt(t: string, k: int)
    requires 1 <= k < |t| - 1
  {
    IsUpper(t[k]) && (IsLower(t[k - 1]) || IsLower(t[k + 1]))
  }

  /** Some lower-case letter comes before some capital: McDonald's. */
  predicate LowerThenUpper(t: string)
  {
    exists p, q :: 0 <= p < q < |t| && IsLower(t[p]) && IsUpper(t[q])
  }

  /**
   * The camel/mixed-case heuristic: both cases occur among the letters, the
   * case does not flip between every pair of neighbouring letters, and one of
   * the two camel patterns is present.
   */
  predicate CamelOrMixed(t: string)
  {
    var L := Letters(t);
    |L| > 0 && HasUpper(t) && HasLower(t) && Transitions(L) < |L| - 1
    && (InnerCapital(t) || LowerThenUpper(t))
  }

  lemma LettersOfLonger(t: string, i: int)
    requires 0 <= i < |t|
    ensures Letters(t[..i + 1]) == Letters(t[..i]) + (if IsLetter(t[i]) then [t[i]] else [])
  {
    assert t[..i + 1][..i] == t[..i];
  }

  lemma TransitionsOfLonger(L: string, c: char)
    ensures Transitions(L + [c]) == Transitions(L) + (if |L| > 0 && IsUpper(L[|L| - 1]) != IsUpper(c) then 1 else 0)
  {
    assert (L + [c])[..|L|] == L;
  }

  lemma CasesOfLonger(t: string, i: int)
    requires 0 <= i < |t|
    ensures HasUpper(t[..i + 1]) == (HasUpper(t[..i]) || IsUpper(t[i]))
    ensures HasLower(t[..i + 1]) == (HasLower(t[..i]) || IsLower(t[i]))
  {
    var p := t[..i + 1];
    assert forall k :: 0 <= k < i ==> p[k] == t[..i][k];
    assert p[i] == t[i];
  }

  /** What one more character does to the letters and their case transitions. */
  lemma LetterStep(t: string, i: int)
    requires 0 <= i < |t|
    ensures var L := Letters(t[..i]); var L1 := Letters(t[..i + 1]);
      if IsLetter(t[i]) then
        |L1| == |L| + 1 && L1[|L|] == t[i]
        && Transitions(L1) == Transitions(L) + (if |L| > 0 && IsUpper(L[|L| - 1]) != IsUpper(t[i]) then 1 else 0)
      else L1 == L
  {
    LettersOfLonger(t, i);
    var L := Letters(t[..i]);
    if IsLetter(t[i]) {
      TransitionsOfLonger(L, t[i]);
    } else {
      assert L + [] == L;
    }
  }

  /** The counting pass of IsCamelOrMixedCase over the letters of the token. */
  method CountLetterCases(token: string) returns (letters: nat, uppers: nat, lowers: nat, transitions: nat)
    ensures letters == |Letters(token)| && transitions == Transitions(Letters(token))
    ensures (uppers > 0) == HasUpper(token) && (lowers > 0) == HasLower(token)
  {
    letters, uppers, lowers, transitions := 0, 0, 0, 0;
    var hasPrev, prevLetter := false, 'a';
    var i := 0;
    while i < |token|
      invariant 0 <= i <= |token|
      invariant letters == |Letters(token[..i])| && transitions == Transitions(Letters(token[..i]))
      invariant hasPrev == (letters > 0)
      invariant hasPrev ==> prevLetter == Letters(token[..i])[letters - 1]
      invariant (uppers > 0) == HasUpper(token[..i])
      invariant (lowers > 0) == HasLower(token[..i])
    {
      var ch := token[i];
      LetterStep(token, i);
      CasesOfLonger(token, i);
      if IsLetter(ch) {
        letters := letters + 1;
        var isUpper := IsUpper(ch);
        if isUpper { uppers := uppers + 1; } else { lowers := lowers + 1; }
        if hasPrev {
          var prevUpper := IsUpper(prevLetter);
          if prevUpper != isUpper { transitions := transitions + 1; }
        }
        hasPrev, prevLetter := true, ch;
      }
      i := i + 1;
    }
    assert token[..i] == token;
  }

  /** The first pattern scan of IsCamelOrMixedCase. */
  method ScanInnerCapital(token: string) returns (b: bool)
    ensures b == InnerCapital(token)
  {
    var i := 1;
    while i < |token| - 1
      invariant 1 <= i
      invariant forall k :: 1 <= k < i && k < |token| - 1 ==> !InnerCapitalAt(token, k)
    {
      if IsUpper(token[i]) && (IsLower(token[i - 1]) || IsLower(token[i + 1])) {
        assert InnerCapitalAt(token, i);
        return true;
      }
      i := i + 1;
    }
    return false;
  }

  /** The second pattern scan of IsCamelOrMixedCase, with its two flags. */
  method ScanLowerThenUpper(token: string) returns (b: bool)
    ensures b == LowerThenUpper(token)
  {
    var sawLowerPrefix, sawUpperRunAfter := false, false;
    var i := 0;
    while i < |token|
      invariant 0 <= i <= |token|
      invariant sawLowerPrefix == HasLower(token[..i])
      invariant sawUpperRunAfter == LowerThenUpper(token[..i])
    {
      var ch := token[i];
      assert token[..i + 1][..i] == token[..i] && token[..i + 1][i] == ch;
      if IsLetter(ch) {
        if IsLower(ch) {
          if !sawUpperRunAfter { sawLowerPrefix := true; }
        } else if IsUpper(ch) && sawLowerPrefix {
          sawUpperRunAfter := true;
        }
      }
      i := i + 1;
    }
    assert token[..i] == token;
    b := sawLowerPrefix && sawUpperRunAfter;
  }

  /** IsCamelOrMixedCase: the counting pass, the three rejections, then the two pattern scans. */
  method IsCamelOrMixedCase(token: string) returns (b: bool)
    ensures b == CamelOrMixed(token)
  {
    var letters, uppers, lowers, transitions := CountLetterCases(token);
    if letters == 0 { return false; }
    if uppers == 0 || lowers == 0 { return false; }
    if transitions >= letters - 1 { return false; }
    b := ScanInnerCapital(token);
    if b { return true; }
    b := ScanLowerThenUpper(token);
  }

  /** A token whose letters are all of one case is never camel or mixed case. */
  lemma SingleCaseIsNotCamel(t: string)
    requires !HasUpper(t) || !HasLower(t)
    ensures !CamelOrMixed(t)
  {
  }

  /** A token whose case flips between every pair of neighbouring letters (tEsT) is not camel or mixed case. */
  lemma {:induction false} AlternatingIsNotCamel(t: string)
    requires forall k :: 1 <= k < |Letters(t)| ==> IsUpper(Letters(t)[k - 1]) != IsUpper(Letters(t)[k])
    ensures !CamelOrMixed(t)
  {
    AlternatingTransitions(Letters(t));
  }

  lemma {:induction false} AlternatingTransitions(L: string)
    requires forall k :: 1 <= k < |L| ==> IsUpper(L[k - 1]) != IsUpper(L[k])
    ensures |L| > 0 ==> Transitions(L) == |L| - 1
  {
    if |L| > 1 {
      AlternatingTransitions(L[..|L| - 1]);
    }
  }

  /** A capitalised word, or one in a single case with at most its first letter capital, is not camel case. */
  lemma TitleShapedIsNotCamel(t: string)
    requires forall k :: 1 <= k < |t| ==> !IsUpper(t[k])
    ensures !CamelOrMixed(t)
  {
  }

  lemma {:induction false} LettersOfWord(t: string)
    requires forall k :: 0 <= k < |t| ==> IsLetter(t[k])
    ensures Letters(t) == t
  {
    if t != [] {
      LettersOfWord(t[..|t| - 1]);
    }
  }

  /** Two neighbouring letters of the same case keep the transitions below the maximum. */
  lemma {:induction false} TransitionsBelowMaximum(L: string, k: int)
    requires 1 <= k < |L| && IsUpper(L[k - 1]) == IsUpper(L[k])
    ensures Transitions(L) < |L| - 1
  {
    if k < |L| - 1 {
      TransitionsBelowMaximum(L[..|L| - 1], k);
    } else {
      TransitionsAtMostMaximum(L[..|L| - 1]);
    }
  }

  lemma {:induction false} TransitionsAtMostMaximum(L: string)
    ensures Transitions(L) <= if |L| == 0 then 0 else |L| - 1
  {
    if |L| > 1 {
      TransitionsAtMostMaximum(L[..|L| - 1]);
    }
  }

  /** A word of letters with two same-case neighbours and an inner capital is camel or mixed case. */
  lemma CamelWord(t: string, same: int, inner: int)
    requires forall k :: 0 <= k < |t| ==> IsLetter(t[k])
    requires 1 <= same < |t| && IsUpper(t[same - 1]) == IsUpper(t[same])
    requires 1 <= inner < |t| - 1 && InnerCapitalAt(t, inner)
    ensures CamelOrMixed(t)
  {
    LettersOfWord(t);
    TransitionsBelowMaximum(t, same);
    assert IsUpper(t[inner]);
    if IsLower(t[inner - 1]) {
      assert HasLower(t);
    } else {
      assert IsLower(t[inner + 1]);
    }
  }

  /** iPhone and eBay are kept as typed. */
  lemma CamelExamples()
    ensures CamelOrMixed("iPhone") && CamelOrMixed("eBay")
  {
    CamelWord("iPhone", 3, 1);
    CamelWord("eBay", 3, 1);
  }

  /** McDonald's is kept: the apostrophe is not a letter and does not count. */
  lemma PossessiveCamelExample()
    ensures CamelOrMixed("McDonald's")
  {
    McDonaldShape();
    CamelPossessive("McDonald", 4, 2);
  }

  lemma McDonaldShape()
    ensures "McDonald's" == "McDonald" + "'s"
    ensures forall k :: 0 <= k < |"McDonald"| ==> IsLetter("McDonald"[k])
    ensures IsUpper("McDonald"[3]) == IsUpper("McDonald"[4]) && InnerCapitalAt("McDonald", 2)
  {
  }

  lemma LettersOfPossessive(u: string)
    requires Letters(u + "'") == u
    ensures Letters(u + "'s") == u + "s"
  {
    var w := u + "'s";
    assert w[..|w| - 1] == u + "'";
    assert w[|w| - 1] == 's' && IsLetter(w[|w| - 1]);
    assert Letters(w) == Letters(w[..|w| - 1]) + [w[|w| - 1]];
  }

  lemma LettersSkipApostrophe(u: string)
    requires forall k :: 0 <= k < |u| ==> IsLetter(u[k])
    ensures Letters(u + "'") == u
  {
    var w := u + "'";
    LettersOfWord(u);
    assert w[..|w| - 1] == u;
    assert !IsLetter(w[|w| - 1]);
  }

  /** The possessive of a camel-case word is camel case: the apostrophe is skipped and the s continues the last run. */
  lemma CamelPossessive(u: string, same: int, inner: int)
    requires forall k :: 0 <= k < |u| ==> IsLetter(u[k])
    requires 1 <= same < |u| && IsUpper(u[same - 1]) == IsUpper(u[same])
    requires 1 <= inner < |u| - 1 && InnerCapitalAt(u, inner)
    ensures CamelOrMixed(u + "'s")
  {
    var w := u + "'s";
    LettersSkipApostrophe(u);
    LettersOfPossessive(u);
    TransitionsBelowMaximum(u + "s", same);
    assert w[inner - 1] == u[inner - 1] && w[inner] == u[inner] && w[inner + 1] == u[inner + 1];
    assert InnerCapitalAt(w, inner);
    assert IsUpper(w[inner]);
    if IsLower(u[inner - 1]) {
      assert IsLower(w[inner - 1]);
    } else {
      assert IsLower(w[inner + 1]);
    }
  }

  /** tEsT alternates case at every letter, so it is not camel or mixed case. */
  lemma AlternatingExample()
    ensures !CamelOrMixed("tEsT")
  {
    LettersOfWord("tEsT");
    AlternatingIsNotCamel("tEsT");
  }

  /** Hello has its only capital first, so it is not camel or mixed case. */
  lemma TitleShapedExample()
    ensures !CamelOrMixed("Hello")
  {
    TitleShapedIsNotCamel("Hello");
  }

  /** NASA has one case only, so it is not camel or mixed case. */
  lemma SingleCaseExample()
    ensures !CamelOrMixed("NASA")
  {
    SingleCaseIsNotCamel("NASA");
  }
}
