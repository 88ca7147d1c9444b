/**
 * Sentence case is a fixed point: converting the converter's own output
 * again changes nothing, provided the proper-case map only re-cases its keys
 * and looks them up ignoring case, and the proper-token and brand-suffix
 * sets ignore case (as the default ones do).
 *
 * The argument follows the scan. A second pass sees the same tokens, the
 * same wrappers, terminators and dotted runs, since only the case of letters
 * has changed; every test that decides the scanner state ignores case, so
 * both passes run through the same states. On each token the rule that
 * decided it the first time decides it again, or a rule that keeps the token
 * as it is does, and each rule's result is a fixed point of that rule.
 */
module SentenceCaseStability {
  import opened Chars
  import opened Text
  import opened Wrappers
  import opened Lexicon
  import opened TokenShape
  import opened SentenceCase
  import opened SentenceCaseFacts

  /** What the second pass needs of the lexicon. */
  ghost predicate StableLexicon(lex: SentenceCaseLexicon)
  {
    MapKeepsCase(lex) && MapIgnoresCase(lex) && lex.properCaseTokens.ignoreCase && lex.brandSuffixes.ignoreCase
  }

  // ---------------------------------------------------------------- tests that ignore case

  lemma CaseVariantSlice(a: string, b: string, i: int, j: int)
    requires CaseVariant(a, b) && 0 <= i <= j <= |a|
    ensures CaseVariant(a[i..j], b[i..j])
  {
  }

  lemma {:induction false} FirstApostropheIgnoresCase(a: string, b: string)
    requires CaseVariant(a, b)
    ensures FirstApostrophe(a) == FirstApostrophe(b)
    decreases |a|
  {
    if |a| > 0 {
      SameFold(a[0], b[0]);
      FirstApostropheIgnoresCase(a[1..], b[1..]);
    }
  }

  lemma DigitsAndApostrophesIgnoreCase(a: string, b: string)
    requires CaseVariant(a, b)
    ensures ContainsDigit(a) == ContainsDigit(b) && ContainsApostrophe(a) == ContainsApostrophe(b)
  {
    forall k | 0 <= k < |a|
      ensures IsDigit(a[k]) == IsDigit(b[k]) && IsApostrophe(a[k]) == IsApostrophe(b[k])
    {
      SameFold(a[k], b[k]);
    }
  }

  lemma ContractionIgnoresCase(a: string, b: string)
    requires CaseVariant(a, b)
    ensures LooksLikeContractionOrPossessive(a) == LooksLikeContractionOrPossessive(b)
  {
    FirstApostropheIgnoresCase(a, b);
    var p := FirstApostrophe(a);
    if 0 < p < |a| - 1 {
      CaseVariantSlice(a, b, p + 1, |a|);
      CaseVariantFacts(a[p + 1..], b[p + 1..]);
      assert (a[0] == 'o' || a[0] == 'O') == (b[0] == 'o' || b[0] == 'O') by {
        assert ToLower(a[0]) == ToLower(b[0]);
      }
    }
  }

  /** The token tests of the cascade answer alike for two case variants. */
  lemma TokenTestsIgnoreCase(a: string, b: string)
    requires CaseVariant(a, b)
    ensures ContainsDigit(a) == ContainsDigit(b) && ContainsApostrophe(a) == ContainsApostrophe(b)
    ensures LooksLikeContractionOrPossessive(a) == LooksLikeContractionOrPossessive(b)
    ensures IsPronounI(a) == IsPronounI(b)
    ensures UpperFirstLowerRest(a) == UpperFirstLowerRest(b)
  {
    DigitsAndApostrophesIgnoreCase(a, b);
    ContractionIgnoresCase(a, b);
    if |a| > 0 {
      assert ToLower(a[0]) == ToLower(b[0]);
      SameFold(a[0], b[0]);
      CaseVariantSlice(a, b, 1, |a|);
      CaseVariantFacts(a[1..], b[1..]);
    }
  }

  lemma {:induction false} TokenEndIgnoresCase(a: string, b: string, i: int)
    requires CaseVariant(a, b) && 0 <= i <= |a|
    ensures TokenEnd(a, i) == TokenEnd(b, i)
    decreases |a| - i
  {
    if i < |a| {
      SameFold(a[i], b[i]);
      TokenEndIgnoresCase(a, b, i + 1);
    }
  }

  lemma {:induction false} RunLeftIgnoresCase(a: string, b: string, p: int)
    requires CaseVariant(a, b) && -1 <= p < |a|
    ensures RunLeft(a, p) == RunLeft(b, p)
    decreases p + 1
  {
    if p >= 0 {
      SameFold(a[p], b[p]);
      RunLeftIgnoresCase(a, b, p - 1);
    }
  }

  lemma {:induction false} RunRightIgnoresCase(a: string, b: string, p: int)
    requires CaseVariant(a, b) && 0 <= p <= |a|
    ensures RunRight(a, p) == RunRight(b, p)
    decreases |a| - p
  {
    if p < |a| {
      SameFold(a[p], b[p]);
      RunRightIgnoresCase(a, b, p + 1);
    }
  }

  /** The dotted run around a gap covers the same positions in a case variant. */
  lemma DottedRunIgnoresCase(a: string, b: string, leftFrom: int, rightFrom: int)
    requires CaseVariant(a, b) && -1 <= leftFrom < rightFrom <= |a|
    ensures CaseVariant(DottedRun(a, leftFrom, rightFrom), DottedRun(b, leftFrom, rightFrom))
  {
    RunLeftIgnoresCase(a, b, leftFrom);
    RunRightIgnoresCase(a, b, rightFrom);
    CaseVariantSlice(a, b, RunLeft(a, leftFrom) + 1, RunRight(a, rightFrom));
  }

  lemma {:induction false} RemoveDotsIgnoresCase(a: string, b: string)
    requires CaseVariant(a, b)
    ensures CaseVariant(RemoveDots(a), RemoveDots(b))
    decreases |a|
  {
    if |a| > 0 {
      var n := |a| - 1;
      SameFold(a[n], b[n]);
      RemoveDotsIgnoresCase(a[..n], b[..n]);
      RemoveDotsSnoc(a);
      RemoveDotsSnoc(b);
      var ka := if a[n] == '.' then [] else [a[n]];
      var kb := if b[n] == '.' then [] else [b[n]];
      CaseVariantConcat(RemoveDots(a[..n]), RemoveDots(b[..n]), ka, kb);
    }
  }

  lemma {:induction false} DropTrailingDotsIgnoresCase(a: string, b: string)
    requires CaseVariant(a, b)
    ensures CaseVariant(DropTrailingDots(a), DropTrailingDots(b))
    decreases |a|
  {
    if |a| > 0 {
      SameFold(a[|a| - 1], b[|a| - 1]);
      DropTrailingDotsIgnoresCase(a[..|a| - 1], b[..|b| - 1]);
    }
  }

  /** The lookup keys built from a dotted run do not depend on the case of its letters. */
  lemma DottedKeysIgnoreCase(d1: string, d2: string)
    requires CaseVariant(d1, d2)
    ensures Upper(RemoveDots(d1)) == Upper(RemoveDots(d2)) && Lower(RemoveDots(d1)) == Lower(RemoveDots(d2))
    ensures Lower(DropTrailingDots(d1)) == Lower(DropTrailingDots(d2))
  {
    RemoveDotsIgnoresCase(d1, d2);
    DropTrailingDotsIgnoresCase(d1, d2);
    CaseVariantFacts(RemoveDots(d1), RemoveDots(d2));
    CaseVariantFacts(DropTrailingDots(d1), DropTrailingDots(d2));
  }

  lemma WordFollowsIgnoresCase(a: string, b: string, p: int)
    requires CaseVariant(a, b)
    ensures WordFollows(a, p) == WordFollows(b, p)
  {
    forall q | 0 <= q < |a|
      ensures (IsWhiteSpace(a[q]) || IsWrapper(a[q])) == (IsWhiteSpace(b[q]) || IsWrapper(b[q]))
    {
      SameFold(a[q], b[q]);
    }
  }

  lemma AbbreviationBeforeDotIgnoresCase(lex: SentenceCaseLexicon, a: string, b: string, start: int, i: int)
    requires CaseVariant(a, b) && 0 <= start <= i <= |a|
    ensures AbbreviationBeforeDot(lex, a, start, i) == AbbreviationBeforeDot(lex, b, start, i)
  {
    if i < |a| {
      SameFold(a[i], b[i]);
    }
    CaseVariantSlice(a, b, start, i);
    CaseVariantFacts(a[start..i], b[start..i]);
  }

  lemma DecimalPointIgnoresCase(a: string, b: string, i: int)
    requires CaseVariant(a, b) && 0 <= i < |a|
    ensures DecimalPoint(a, i) == DecimalPoint(b, i)
  {
    if i > 0 {
      SameFold(a[i - 1], b[i - 1]);
    }
    if i + 1 < |a| {
      SameFold(a[i + 1], b[i + 1]);
    }
  }

  lemma AbbreviationAtIgnoresCase(lex: SentenceCaseLexicon, a: string, b: string, i: int)
    requires CaseVariant(a, b) && 0 <= i < |a|
    ensures AbbreviationAt(lex, a, i) == AbbreviationAt(lex, b, i)
  {
    DottedRunIgnoresCase(a, b, i - 1, i + 1);
    DottedKeysIgnoreCase(DottedRun(a, i - 1, i + 1), DottedRun(b, i - 1, i + 1));
  }

  /** Whether a terminator ends a sentence does not depend on the case of the letters around it. */
  lemma TerminatorStepIgnoresCase(lex: SentenceCaseLexicon, a: string, b: string, i: int, st: ScanState)
    requires CaseVariant(a, b) && 0 <= i < |a|
    ensures TerminatorStep(lex, a, i, st) == TerminatorStep(lex, b, i, st)
  {
    DecimalPointIgnoresCase(a, b, i);
    AbbreviationAtIgnoresCase(lex, a, b, i);
    WordFollowsIgnoresCase(a, b, i + 1);
  }

  /** A character that starts no token moves the scanner alike in both texts. */
  lemma CharStepIgnoresCase(lex: SentenceCaseLexicon, a: string, b: string, i: int, st: ScanState)
    requires CaseVariant(a, b) && 0 <= i < |a| && !IsLetterOrDigit(b[i])
    ensures CharStep(lex, a, i, st) == CharStep(lex, b, i, st)
  {
    SameFold(a[i], b[i]);
    TerminatorStepIgnoresCase(lex, a, b, i, WrapperStep(st, a[i]));
  }

  // ---------------------------------------------------------------- each rule is a fixed point

  /** A token with an apostrophe is never an all-capitals acronym. */
  lemma ApostropheIsNoAcronym(u: string)
    requires ContainsApostrophe(u)
    ensures !AllUpperLetters(u)
  {
    var k :| 0 <= k < |u| && IsApostrophe(u[k]);
    assert !IsUpper(u[k]);
  }

  /** Nor is a token of two or more characters whose second one is lower-cased. */
  lemma LowerRestIsNoAcronym(t: string)
    requires |t| >= 2
    ensures !AllUpperLetters(UpperFirstLowerRest(t))
  {
    UpperFirstLowerRestShape(t);
    assert !IsUpper(UpperFirstLowerRest(t)[1]);
  }

  /** The sentence-start word rule applied to its own result gives that result back. */
  lemma StartWordStable(lex: SentenceCaseLexicon, opt: SentenceCaseOptions, t: string)
    ensures StartWord(lex, opt, StartWord(lex, opt, t)) == StartWord(lex, opt, t)
  {
    var u := StartWord(lex, opt, t);
    StartWordKeepsCase(lex, opt, t);
    TokenTestsIgnoreCase(u, t);
    if AllCapsAcronym(lex, opt, t) || ContainsDigit(t) {
    } else if ContainsApostrophe(t) {
      ApostropheIsNoAcronym(u);
      CapApostrophesIgnoresCase(u, t);
    } else if |t| >= 2 {
      LowerRestIsNoAcronym(t);
    }
  }

  /** The mid-sentence word rule applied to its own result gives that result back. */
  lemma MidWordStable(lex: SentenceCaseLexicon, opt: SentenceCaseOptions, t: string, st: ScanState)
    requires lex.properCaseTokens.ignoreCase && lex.brandSuffixes.ignoreCase
    ensures MidWord(lex, opt, MidWord(lex, opt, t, st), st) == MidWord(lex, opt, t, st)
  {
    var u := MidWord(lex, opt, t, st);
    MidWordKeepsCase(lex, opt, t, st);
    ContainsIgnoresCase(lex.properCaseTokens, u, t);
    ContainsIgnoresCase(lex.brandSuffixes, u, t);
    TokenTestsIgnoreCase(u, t);
    CapApostrophesIgnoresCase(u, t);
    if lex.properCaseTokens.Contains(t) || (lex.brandSuffixes.Contains(t) && (st.prevWasBrand || st.prevHadDigit)) {
    } else if (opt.preserveAcronymsMidSentence && AllCapsAcronym(lex, opt, t)) || CamelOrMixed(t) || ContainsDigit(t) {
    } else {
      assert u == Lower(t);
      LowerIsIdempotent(t);
      assert !HasUpper(u);
      if |u| > 0 {
        assert !AllUpperLetters(u) by { assert !IsUpper(u[0]); }
      }
    }
  }

  /** A dotted initial keeps its case when the run around it is looked up again. */
  lemma DottedInitialStable(lex: SentenceCaseLexicon, t: string, d1: string, d2: string)
    requires CaseVariant(d1, d2)
    ensures DottedInitial(lex, DottedInitial(lex, t, d1), d2) == DottedInitial(lex, t, d1)
  {
    DottedKeysIgnoreCase(d1, d2);
    LowerUpperAreCaseVariants(t);
    CaseVariantFacts(Upper(t), t);
    CaseVariantFacts(Lower(t), t);
  }

  // ---------------------------------------------------------------- one token

  lemma StartTokenStable(lex: SentenceCaseLexicon, opt: SentenceCaseOptions, text: string, out: string, start: int, i: int, st: ScanState)
    requires 0 <= start < i <= |text| && CaseVariant(out, text)
    requires out[start..i] == StartToken(lex, opt, text, start, i, st).0
    ensures StartToken(lex, opt, out, start, i, st) == StartToken(lex, opt, text, start, i, st)
  {
    var t, u := text[start..i], out[start..i];
    CaseVariantSlice(out, text, start, i);
    CaseVariantFacts(u, t);
    TokenTestsIgnoreCase(u, t);
    AbbreviationBeforeDotIgnoresCase(lex, out, text, start, i);
    if !AbbreviationBeforeDot(lex, text, start, i) {
      StartWordStable(lex, opt, t);
    }
  }

  lemma MidRulesStable(lex: SentenceCaseLexicon, opt: SentenceCaseOptions, text: string, out: string, start: int, i: int, st: ScanState)
    requires lex.properCaseTokens.ignoreCase && lex.brandSuffixes.ignoreCase
    requires 0 <= start < i <= |text| && CaseVariant(out, text)
    requires out[start..i] == MidRules(lex, opt, text, start, i, st).0
    ensures MidRules(lex, opt, out, start, i, st) == MidRules(lex, opt, text, start, i, st)
  {
    var t, u := text[start..i], out[start..i];
    CaseVariantSlice(out, text, start, i);
    CaseVariantFacts(u, t);
    TokenTestsIgnoreCase(u, t);
    AbbreviationBeforeDotIgnoresCase(lex, out, text, start, i);
    if i < |text| {
      SameFold(out[i], text[i]);
    }
    if AbbreviationBeforeDot(lex, text, start, i) {
    } else if |t| == 1 && i < |text| && text[i] == '.' {
      DottedRunIgnoresCase(text, out, start - 1, i);
      DottedInitialStable(lex, t, DottedRun(text, start - 1, i), DottedRun(out, start - 1, i));
    } else {
      MidWordStable(lex, opt, t, st);
    }
  }

  lemma MidTokenStable(lex: SentenceCaseLexicon, opt: SentenceCaseOptions, text: string, out: string, start: int, i: int, st: ScanState)
    requires lex.properCaseTokens.ignoreCase && lex.brandSuffixes.ignoreCase
    requires 0 <= start < i <= |text| && CaseVariant(out, text)
    requires out[start..i] == MidToken(lex, opt, text, start, i, st).0
    ensures MidToken(lex, opt, out, start, i, st) == MidToken(lex, opt, text, start, i, st)
  {
    CaseVariantSlice(out, text, start, i);
    TokenTestsIgnoreCase(out[start..i], text[start..i]);
    if !(st.prevWasHonorific && st.wrapperDepth == st.prevHonorificDepth) {
      MidRulesStable(lex, opt, text, out, start, i, st.(prevWasHonorific := false));
    }
  }

  /** The second pass over a token gives the same output and the same next state. */
  lemma TokenStepStable(lex: SentenceCaseLexicon, opt: SentenceCaseOptions, text: string, out: string, start: int, i: int, st: ScanState)
    requires StableLexicon(lex) && 0 <= start < i <= |text| && CaseVariant(out, text)
    requires out[start..i] == TokenStep(lex, opt, text, start, i, st).0
    ensures TokenStep(lex, opt, out, start, i, st) == TokenStep(lex, opt, text, start, i, st)
  {
    var t, u := text[start..i], out[start..i];
    CaseVariantSlice(out, text, start, i);
    TokenTestsIgnoreCase(u, t);
    assert lex.properCaseMap(u) == lex.properCaseMap(t);
    match lex.properCaseMap(t)
    case Some(mapped) =>
    case None =>
      if IsPronounI(t) {
      } else if st.atSentenceStart {
        StartTokenStable(lex, opt, text, out, start, i, st);
      } else {
        MidTokenStable(lex, opt, text, out, start, i, st);
      }
  }

  // ---------------------------------------------------------------- the whole scan

  /** Where a token starts, out holds its cased form and then the scan of the rest. */
  lemma TokenPieces(lex: SentenceCaseLexicon, opt: SentenceCaseOptions, text: string, out: string, i: int, st: ScanState)
    requires MapKeepsCase(lex) && 0 <= i < |text| && IsLetterOrDigit(text[i]) && |out| == |text|
    requires out[i..] == SentenceFrom(lex, opt, text, i, st)
    ensures var e := TokenEnd(text, i); var (outTok, st1) := TokenStep(lex, opt, text, i, e, st);
      out[i..e] == outTok && out[e..] == SentenceFrom(lex, opt, text, e, st1)
  {
    var e := TokenEnd(text, i);
    var (outTok, st1) := TokenStep(lex, opt, text, i, e, st);
    TokenCaseKeepsCase(lex, opt, text, i, e, st);
    SentenceFromAtToken(lex, opt, text, i, st);
    assert out[i..e] == out[i..][..e - i] && out[e..] == out[i..][e - i..];
  }

  /** The second pass over such a token reproduces it. */
  lemma TokenStable(lex: SentenceCaseLexicon, opt: SentenceCaseOptions, text: string, out: string, i: int, st: ScanState)
    requires StableLexicon(lex) && 0 <= i < |text| && IsLetterOrDigit(text[i]) && CaseVariant(out, text)
    requires var e := TokenEnd(text, i); var (outTok, st1) := TokenStep(lex, opt, text, i, e, st);
      out[i..e] == outTok && SentenceFrom(lex, opt, out, e, st1) == out[e..]
    ensures SentenceFrom(lex, opt, out, i, st) == out[i..]
  {
    var e := TokenEnd(text, i);
    SameFold(out[i], text[i]);
    TokenEndIgnoresCase(out, text, i);
    TokenStepStable(lex, opt, text, out, i, e, st);
    SentenceFromAtToken(lex, opt, out, i, st);
    SliceSplit(out, i, e);
  }

  /**
   * If out, a re-casing of text, is from i on what the scan of text from i
   * produces, then the scan of out from i (in the same state) gives that
   * part of out back.
   */
  lemma {:induction false} SentenceFromStable(lex: SentenceCaseLexicon, opt: SentenceCaseOptions, text: string, out: string, i: int, st: ScanState)
    requires StableLexicon(lex) && 0 <= i <= |text| && CaseVariant(out, text)
    requires out[i..] == SentenceFrom(lex, opt, text, i, st)
    ensures SentenceFrom(lex, opt, out, i, st) == out[i..]
    decreases |text| - i
  {
    if i < |text| {
      if IsLetterOrDigit(text[i]) {
        var e := TokenEnd(text, i);
        TokenPieces(lex, opt, text, out, i, st);
        SentenceFromStable(lex, opt, text, out, e, TokenStep(lex, opt, text, i, e, st).1);
        TokenStable(lex, opt, text, out, i, st);
      } else {
        var st1 := CharStep(lex, text, i, st);
        SameFold(out[i], text[i]);
        SentenceFromAtChar(lex, opt, text, i, st);
        SliceCons(out, i);
        SentenceFromStable(lex, opt, text, out, i + 1, st1);
        CharStepIgnoresCase(lex, out, text, i, st);
        SentenceFromAtChar(lex, opt, out, i, st);
      }
    }
  }

  /**
   * Sentence case is a fixed point of itself: converting its output again
   * returns that output unchanged.
   */
  lemma SentenceCaseStable(lex: SentenceCaseLexicon, opt: SentenceCaseOptions, input: string)
    requires StableLexicon(lex)
    ensures ToSentenceCase(lex, opt, ToSentenceCase(lex, opt, input)) == ToSentenceCase(lex, opt, input)
  {
    if |input| > 0 {
      var text := NormalizeNewlines(input);
      var out := ToSentenceCase(lex, opt, input);
      SentenceCaseKeepsText(lex, opt, input);
      NormalizedHasNoCr(input);
      if |out| > 0 {
        assert '\r' !in out by {
          forall k | 0 <= k < |out| ensures out[k] != '\r' {
            if !IsLetter(text[k]) {
              assert out[k] == text[k];
            }
          }
        }
        NormalizeWithoutCr(out);
        assert out[0..] == out;
        SentenceFromStable(lex, opt, text, out, 0, InitialState);
      }
    }
  }

  /** The default lexicon meets the requirement whenever the proper-case map does. */
  lemma DefaultSentenceCaseStable(m: string -> Option<string>, h: Option<WordSet>, opt: SentenceCaseOptions, input: string)
    requires MapKeepsCase(DefaultSentenceCaseLexicon(m, h)) && MapIgnoresCase(DefaultSentenceCaseLexicon(m, h))
    ensures var lex := DefaultSentenceCaseLexicon(m, h);
      ToSentenceCase(lex, opt, ToSentenceCase(lex, opt, input)) == ToSentenceCase(lex, opt, input)
  {
    SentenceCaseStable(DefaultSentenceCaseLexicon(m, h), opt, input);
  }
}
