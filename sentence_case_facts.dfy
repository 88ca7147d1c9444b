/**
 * Properties of the sentence-case converter, stated about the pure scan
 * (SentenceFrom, TokenStep, CharStep) that the imperative converter is
 * proved equal to.
 */
module SentenceCaseFacts {
  import opened Chars
  import opened Text
  import opened Wrappers
  import opened Lexicon
  import opened TokenShape
  import opened SentenceCase

  // ---------------------------------------------------------------- only case changes

  lemma StartWordKeepsCase(lex: SentenceCaseLexicon, opt: SentenceCaseOptions, token: string)
    ensures CaseVariant(StartWord(lex, opt, token), token)
  {
    UpperFirstLowerRestShape(token);
    CapApostrophesShape(token);
  }

  lemma MidWordKeepsCase(lex: SentenceCaseLexicon, opt: SentenceCaseOptions, token: string, st: ScanState)
    ensures CaseVariant(MidWord(lex, opt, token, st), token)
  {
    CapApostrophesShape(token);
    LowerUpperAreCaseVariants(token);
  }

  lemma DottedInitialKeepsCase(lex: SentenceCaseLexicon, token: string, dotted: string)
    ensures CaseVariant(DottedInitial(lex, token, dotted), token)
  {
    LowerUpperAreCaseVariants(token);
  }

  lemma StartTokenKeepsCase(lex: SentenceCaseLexicon, opt: SentenceCaseOptions, text: string, start: int, i: int, st: ScanState)
    requires 0 <= start < i <= |text|
    ensures CaseVariant(StartToken(lex, opt, text, start, i, st).0, text[start..i])
  {
    UpperFirstLowerRestShape(text[start..i]);
    StartWordKeepsCase(lex, opt, text[start..i]);
  }

  lemma MidRulesKeepsCase(lex: SentenceCaseLexicon, opt: SentenceCaseOptions, text: string, start: int, i: int, st: ScanState)
    requires 0 <= start < i <= |text|
    ensures CaseVariant(MidRules(lex, opt, text, start, i, st).0, text[start..i])
  {
    var token := text[start..i];
    if AbbreviationBeforeDot(lex, text, start, i) {
      UpperFirstLowerRestShape(token);
    } else if |token| == 1 && i < |text| && text[i] == '.' {
      DottedInitialKeepsCase(lex, token, DottedRun(text, start - 1, i));
    } else {
      MidWordKeepsCase(lex, opt, token, st);
    }
  }

  lemma MidTokenKeepsCase(lex: SentenceCaseLexicon, opt: SentenceCaseOptions, text: string, start: int, i: int, st: ScanState)
    requires 0 <= start < i <= |text|
    ensures CaseVariant(MidToken(lex, opt, text, start, i, st).0, text[start..i])
  {
    UpperFirstLowerRestShape(text[start..i]);
    MidRulesKeepsCase(lex, opt, text, start, i, st.(prevWasHonorific := false));
  }

  /** Every branch of the cascade re-cases the token and changes nothing else. */
  lemma TokenCaseKeepsCase(lex: SentenceCaseLexicon, opt: SentenceCaseOptions, text: string, start: int, i: int, st: ScanState)
    requires MapKeepsCase(lex) && 0 <= start < i <= |text|
    ensures CaseVariant(TokenCase(lex, opt, text, start, i, st).0, text[start..i])
  {
    var token := text[start..i];
    match lex.properCaseMap(token)
    case Some(mapped) =>
    case None =>
      if IsPronounI(token) {
        assert ToLower('I') == ToLower(token[0]);
      } else if st.atSentenceStart {
        StartTokenKeepsCase(lex, opt, text, start, i, st);
      } else {
        MidTokenKeepsCase(lex, opt, text, start, i, st);
      }
  }

  lemma {:induction false} SentenceFromKeepsCase(lex: SentenceCaseLexicon, opt: SentenceCaseOptions, text: string, i: int, st: ScanState)
    requires MapKeepsCase(lex) && 0 <= i <= |text|
    ensures CaseVariant(SentenceFrom(lex, opt, text, i, st), text[i..])
    decreases |text| - i
  {
    if i < |text| {
      if IsLetterOrDigit(text[i]) {
        var e := TokenEnd(text, i);
        SentenceFromKeepsCase(lex, opt, text, e, TokenStep(lex, opt, text, i, e, st).1);
        TokenKeepsCase(lex, opt, text, i, st);
      } else {
        SentenceFromKeepsCase(lex, opt, text, i + 1, CharStep(lex, text, i, st));
        CharKeepsCase(lex, opt, text, i, st);
      }
    }
  }

  /** A token followed by a case variant of the rest is a case variant of the whole. */
  lemma TokenKeepsCase(lex: SentenceCaseLexicon, opt: SentenceCaseOptions, text: string, i: int, st: ScanState)
    requires MapKeepsCase(lex) && 0 <= i < |text| && IsLetterOrDigit(text[i])
    requires var e := TokenEnd(text, i);
      CaseVariant(SentenceFrom(lex, opt, text, e, TokenStep(lex, opt, text, i, e, st).1), text[e..])
    ensures CaseVariant(SentenceFrom(lex, opt, text, i, st), text[i..])
  {
    var e := TokenEnd(text, i);
    var (outTok, st1) := TokenStep(lex, opt, text, i, e, st);
    TokenCaseKeepsCase(lex, opt, text, i, e, st);
    SentenceFromAtToken(lex, opt, text, i, st);
    CaseVariantConcat(outTok, text[i..e], SentenceFrom(lex, opt, text, e, st1), text[e..]);
    SliceSplit(text, i, e);
  }

  /** A copied character followed by a case variant of the rest is a case variant of the whole. */
  lemma CharKeepsCase(lex: SentenceCaseLexicon, opt: SentenceCaseOptions, text: string, i: int, st: ScanState)
    requires 0 <= i < |text| && !IsLetterOrDigit(text[i])
    requires CaseVariant(SentenceFrom(lex, opt, text, i + 1, CharStep(lex, text, i, st)), text[i + 1..])
    ensures CaseVariant(SentenceFrom(lex, opt, text, i, st), text[i..])
  {
    var st1 := CharStep(lex, text, i, st);
    SentenceFromAtChar(lex, opt, text, i, st);
    CaseVariantConcat([text[i]], [text[i]], SentenceFrom(lex, opt, text, i + 1, st1), text[i + 1..]);
    SliceCons(text, i);
  }

  /**
   * The converter only changes the case of letters: the result has the
   * length of the newline-unified input, the same characters up to case,
   * and exactly the same non-letters.
   */
  lemma SentenceCaseKeepsText(lex: SentenceCaseLexicon, opt: SentenceCaseOptions, input: string)
    requires MapKeepsCase(lex)
    ensures CaseVariant(ToSentenceCase(lex, opt, input), NormalizeNewlines(input))
    ensures forall k :: 0 <= k < |NormalizeNewlines(input)| && !IsLetter(NormalizeNewlines(input)[k])
              ==> ToSentenceCase(lex, opt, input)[k] == NormalizeNewlines(input)[k]
  {
    var text := NormalizeNewlines(input);
    NormalizedHasNoCr(input);
    if |input| > 0 {
      SentenceFromKeepsCase(lex, opt, text, 0, InitialState);
      assert text[0..] == text;
    }
    forall k | 0 <= k < |text| && !IsLetter(text[k])
      ensures ToSentenceCase(lex, opt, input)[k] == text[k]
    {
      CaseVariantKeepsNonLetters(ToSentenceCase(lex, opt, input), text, k);
    }
  }

  /** The empty text is returned unchanged. */
  lemma EmptyInputUnchanged(lex: SentenceCaseLexicon, opt: SentenceCaseOptions)
    ensures ToSentenceCase(lex, opt, "") == ""
  {
  }

  // ---------------------------------------------------------------- the state after a token

  /**
   * A token ends the sentence start, records whether it held a digit and
   * whether its output is a brand, keeps wrapper depth and quote flags, and
   * drops a pending second-wrapper capital once no wrapper is open.
   */
  lemma TokenStepState(lex: SentenceCaseLexicon, opt: SentenceCaseOptions, text: string, start: int, i: int, st: ScanState)
    requires 0 <= start < i <= |text|
    ensures var (outTok, next) := TokenStep(lex, opt, text, start, i, st);
      && !next.atSentenceStart
      && next.wrapperDepth == st.wrapperDepth
      && next.inDoubleQuote == st.inDoubleQuote && next.inSingleQuote == st.inSingleQuote
      && next.prevHadDigit == ContainsDigit(text[start..i])
      && next.prevWasBrand == lex.brandTokens.Contains(outTok)
      && next.pendingSecondWrapperCap == (st.pendingSecondWrapperCap && st.wrapperDepth != 0)
  {
    TokenCaseKeepsWrappers(lex, opt, text, start, i, st);
  }

  /** The state fields that only separators change. */
  predicate SameWrappers(a: ScanState, b: ScanState)
  {
    a.wrapperDepth == b.wrapperDepth && a.inDoubleQuote == b.inDoubleQuote
    && a.inSingleQuote == b.inSingleQuote && a.pendingSecondWrapperCap == b.pendingSecondWrapperCap
  }

  lemma TokenCaseKeepsWrappers(lex: SentenceCaseLexicon, opt: SentenceCaseOptions, text: string, start: int, i: int, st: ScanState)
    requires 0 <= start < i <= |text|
    ensures SameWrappers(TokenCase(lex, opt, text, start, i, st).1, st)
  {
    var token := text[start..i];
    match lex.properCaseMap(token) {
      case Some(_) =>
      case None =>
        if IsPronounI(token) {
        } else if st.atSentenceStart {
          StartTokenKeepsWrappers(lex, opt, text, start, i, st);
        } else {
          MidTokenKeepsWrappers(lex, opt, text, start, i, st);
        }
    }
  }

  lemma StartTokenKeepsWrappers(lex: SentenceCaseLexicon, opt: SentenceCaseOptions, text: string, start: int, i: int, st: ScanState)
    requires 0 <= start < i <= |text|
    ensures SameWrappers(StartToken(lex, opt, text, start, i, st).1, st)
  {
  }

  lemma MidTokenKeepsWrappers(lex: SentenceCaseLexicon, opt: SentenceCaseOptions, text: string, start: int, i: int, st: ScanState)
    requires 0 <= start < i <= |text|
    ensures SameWrappers(MidToken(lex, opt, text, start, i, st).1, st)
  {
    var cleared := st.(prevWasHonorific := false);
    if !(st.prevWasHonorific && st.wrapperDepth == st.prevHonorificDepth) {
      MidRulesKeepsWrappers(lex, opt, text, start, i, cleared);
    }
  }

  lemma MidRulesKeepsWrappers(lex: SentenceCaseLexicon, opt: SentenceCaseOptions, text: string, start: int, i: int, st: ScanState)
    requires 0 <= start < i <= |text|
    ensures SameWrappers(MidRules(lex, opt, text, start, i, st).1, st)
  {
  }

  /** The pronoun "i" or "I" not in the proper-case map becomes "I", wherever it stands. */
  lemma PronounIsCapital(lex: SentenceCaseLexicon, opt: SentenceCaseOptions, text: string, start: int, i: int, st: ScanState)
    requires 0 <= start < i <= |text| && IsPronounI(text[start..i]) && lex.properCaseMap(text[start..i]).None?
    ensures TokenStep(lex, opt, text, start, i, st).0 == "I"
  {
  }

  /** The proper-case map wins over every other rule. */
  lemma MapWins(lex: SentenceCaseLexicon, opt: SentenceCaseOptions, text: string, start: int, i: int, st: ScanState)
    requires 0 <= start < i <= |text| && lex.properCaseMap(text[start..i]).Some?
    ensures TokenStep(lex, opt, text, start, i, st).0 == lex.properCaseMap(text[start..i]).value
  {
  }

  /**
   * The honorific carry-over: a mid-sentence word that follows an honorific
   * at the same wrapper depth is capitalised; at another depth it follows
   * the ordinary rules. Either way the carry-over is consumed unless the
   * word is itself an honorific before a dot.
   */
  lemma HonorificCarryOver(lex: SentenceCaseLexicon, opt: SentenceCaseOptions, text: string, start: int, i: int, st: ScanState)
    requires 0 <= start < i <= |text|
    requires lex.properCaseMap(text[start..i]).None? && !IsPronounI(text[start..i]) && !st.atSentenceStart
    requires st.prevWasHonorific
    ensures st.wrapperDepth == st.prevHonorificDepth ==>
              TokenStep(lex, opt, text, start, i, st).0 == UpperFirstLowerRest(text[start..i])
              && !TokenStep(lex, opt, text, start, i, st).1.prevWasHonorific
    ensures st.wrapperDepth != st.prevHonorificDepth ==>
              TokenStep(lex, opt, text, start, i, st).0 == MidRules(lex, opt, text, start, i, st.(prevWasHonorific := false)).0
              && (TokenStep(lex, opt, text, start, i, st).1.prevWasHonorific
                  <==> AbbreviationBeforeDot(lex, text, start, i) && IsHonorific(lex, Lower(text[start..i])))
  {
  }

  // ---------------------------------------------------------------- sentence starts

  /** A word with an apostrophe that is neither a contraction nor an abbreviation before a dot. */
  predicate SurnameAtStart(lex: SentenceCaseLexicon, text: string, start: int, i: int)
    requires 0 <= start <= i <= |text|
  {
    ContainsApostrophe(text[start..i]) && !LooksLikeContractionOrPossessive(text[start..i])
    && !AbbreviationBeforeDot(lex, text, start, i)
  }

  /**
   * What an armed sentence start does to a word that no earlier rule takes:
   * a word that begins with a letter and is neither an acronym nor holds a
   * digit comes out with a capital first letter and its length kept. It is
   * UpperFirstLowerRest, except for a word with an apostrophe that is no
   * contraction, which is capitalised after every apostrophe as well. The
   * sentence start is then consumed.
   */
  lemma StartTokenCapitalises(lex: SentenceCaseLexicon, opt: SentenceCaseOptions, text: string, start: int, i: int, st: ScanState)
    requires 0 <= start < i <= |text| && st.atSentenceStart
    requires lex.properCaseMap(text[start..i]).None? && !IsPronounI(text[start..i])
    requires IsLetter(text[start])
    requires !AllCapsAcronym(lex, opt, text[start..i]) && !ContainsDigit(text[start..i])
    ensures var (outTok, next) := TokenStep(lex, opt, text, start, i, st);
      && |outTok| == i - start && IsUpper(outTok[0]) && !next.atSentenceStart
      && (SurnameAtStart(lex, text, start, i) ==> outTok == CapApostrophes(text[start..i]))
      && (!SurnameAtStart(lex, text, start, i) ==> outTok == UpperFirstLowerRest(text[start..i]))
  {
    var token := text[start..i];
    assert token[0] == text[start];
    UpperFirstLowerRestShape(token);
    CapApostrophesShape(token);
    assert CapitalisedAt(token, 0);
  }

  // ---------------------------------------------------------------- sentence ends

  /**
   * A terminator arms the next sentence exactly when it is not a decimal
   * point, not the dot of a known abbreviation, and a word follows; in the
   * other cases it leaves the whole state unchanged.
   */
  lemma TerminatorStartsSentence(lex: SentenceCaseLexicon, text: string, i: int, st: ScanState)
    requires 0 <= i < |text| && IsSentenceTerminator(text[i])
    ensures CharStep(lex, text, i, st).atSentenceStart
            <==> st.atSentenceStart || (!DecimalPoint(text, i) && !AbbreviationAt(lex, text, i) && WordFollows(text, i + 1))
    ensures DecimalPoint(text, i) || AbbreviationAt(lex, text, i) || !WordFollows(text, i + 1) ==> CharStep(lex, text, i, st) == st
    ensures !DecimalPoint(text, i) && !AbbreviationAt(lex, text, i) && WordFollows(text, i + 1) ==>
              CharStep(lex, text, i, st).pendingSecondWrapperCap
  {
  }

  /** A line break always starts a new sentence and changes nothing else. */
  lemma NewlineStartsSentence(lex: SentenceCaseLexicon, text: string, i: int, st: ScanState)
    requires 0 <= i < |text| && text[i] == '\n'
    ensures CharStep(lex, text, i, st) == st.(atSentenceStart := true)
  {
  }

  /**
   * Closing the last open wrapper after a sentence end, with a bracket or
   * with the quote that closes an open quotation, re-arms the sentence
   * start for the next wrapper group.
   */
  lemma ClosingWrapperRearms(st: ScanState, c: char)
    requires (c == ')' || c == ']' || c == '}') || (c == '"' && st.inDoubleQuote) || (c == '\'' && st.inSingleQuote)
    requires st.wrapperDepth == 1 && st.pendingSecondWrapperCap
    ensures WrapperStep(st, c).atSentenceStart && !WrapperStep(st, c).pendingSecondWrapperCap
    ensures WrapperStep(st, c).wrapperDepth == 0
  {
  }

  /** Wrapper tracking never drives the depth below zero, and only brackets and quotes move it. */
  lemma WrapperStepKeepsDepth(st: ScanState, c: char)
    requires st.wrapperDepth >= 0
    ensures WrapperStep(st, c).wrapperDepth >= 0
    ensures !IsWrapper(c) && c != '(' && c != '[' && c != '{' ==> WrapperStep(st, c).wrapperDepth == st.wrapperDepth
  {
    if c == '"' || c == '\'' {
      QuoteStepDepth(st, c);
    } else if !IsWrapper(c) && c != '(' && c != '[' && c != '{' {
      assert WrapperStep(st, c) == st;
    }
  }

  /** A quote opens a level or closes one, and never closes below zero. */
  lemma QuoteStepDepth(st: ScanState, c: char)
    requires st.wrapperDepth >= 0 && (c == '"' || c == '\'')
    ensures WrapperStep(st, c).wrapperDepth >= 0
  {
    if c == '"' {
      var s1 := st.(inDoubleQuote := !st.inDoubleQuote);
      if !s1.inDoubleQuote && s1.wrapperDepth > 0 {
        assert WrapperStep(st, c) == CloseWrapper(s1);
      }
    } else {
      var s1 := st.(inSingleQuote := !st.inSingleQuote);
      if !s1.inSingleQuote && s1.wrapperDepth > 0 {
        assert WrapperStep(st, c) == CloseWrapper(s1);
      }
    }
  }

  /** Past the wrapper tracking, a non-token character leaves the depth alone. */
  lemma CharStepDepth(lex: SentenceCaseLexicon, text: string, i: int, st: ScanState)
    requires 0 <= i < |text|
    ensures CharStep(lex, text, i, st).wrapperDepth == WrapperStep(st, text[i]).wrapperDepth
  {
  }

  // ---------------------------------------------------------------- the default lexicon at work

  /** Every whitelisted acronym passes the acronym test, whatever the options. */
  lemma DefaultAcronymsAreKept(m: string -> Option<string>, h: Option<WordSet>, opt: SentenceCaseOptions, w: string)
    requires w in UpperAcronymEntries
    ensures AllCapsAcronym(DefaultSentenceCaseLexicon(m, h), opt, w)
  {
    UpperAcronymsAreUpperLetters();
  }

  lemma XyzIsNoProperToken()
    ensures !WordSet(ProperCaseTokenEntries, true).Contains("XYZ")
  {
    assert Lower("XYZ") == "xyz";
  }
  lemma XyzIsNoBrandSuffix()
    ensures !WordSet(BrandSuffixEntries, true).Contains("XYZ")
  {
    assert Lower("XYZ") == "xyz";
    assert Lower("Pro") == "pro" && Lower("Max") == "max";
  }
  lemma XyzShape()
    ensures !ContainsDigit("XYZ") && Lower("XYZ") == "xyz"
  {
  }

  /** A mid-sentence word that no rule keeps is lower-cased. */
  lemma MidWordLowers(lex: SentenceCaseLexicon, opt: SentenceCaseOptions, token: string, st: ScanState)
    requires !lex.properCaseTokens.Contains(token) && !lex.brandSuffixes.Contains(token)
    requires !(opt.preserveAcronymsMidSentence && AllCapsAcronym(lex, opt, token))
    requires !CamelOrMixed(token) && !ContainsDigit(token)
    ensures MidWord(lex, opt, token, st) == Lower(token)
  {
  }

  /** With the default options an unknown all-caps word mid-sentence is lower-cased. */
  lemma UnknownCapsAreLowered(m: string -> Option<string>, h: Option<WordSet>, st: ScanState)
    ensures MidWord(DefaultSentenceCaseLexicon(m, h), DefaultSentenceCaseOptions, "XYZ", st) == "xyz"
  {
    XyzIsNoProperToken();
    XyzIsNoBrandSuffix();
    XyzIsNoAcronym();
    XyzLowered(DefaultSentenceCaseLexicon(m, h), DefaultSentenceCaseOptions, st);
  }

  /** "XYZ" is lower-cased by any lexicon that does not list it, when unknown short capitals are no acronyms. */
  lemma XyzLowered(lex: SentenceCaseLexicon, opt: SentenceCaseOptions, st: ScanState)
    requires !lex.properCaseTokens.Contains("XYZ") && !lex.brandSuffixes.Contains("XYZ")
    requires !lex.upperAcronyms.Contains("XYZ") && !opt.treatUnknownShortAllCapsAsAcronym
    ensures MidWord(lex, opt, "XYZ", st) == "xyz"
  {
    SingleCaseIsNotCamel("XYZ");
    XyzShape();
    MidWordLowers(lex, opt, "XYZ", st);
  }

  /** "it's" and "o'clock" are contractions; "o'neill" is not, so it keeps its inner capital rule. */
  lemma ContractionExamples()
    ensures LooksLikeContractionOrPossessive("it's")
    ensures LooksLikeContractionOrPossessive("o'clock")
    ensures !LooksLikeContractionOrPossessive("o'neill")
  {
    assert FirstApostrophe("it's") == 2;
    assert Lower("s") == "s";
    assert FirstApostrophe("o'clock") == 1;
    assert Lower("clock") == "clock";
    assert FirstApostrophe("o'neill") == 1;
    assert Lower("neill") == "neill";
  }

  /** Folding to lower case twice is folding once. */
  lemma LowerTwice(x: string)
    ensures Lower(Lower(x)) == Lower(x)
  {
    forall k | 0 <= k < |x|
      ensures ToLower(ToLower(x[k])) == ToLower(x[k])
    {
      if IsUpper(x[k]) {
        assert IsLetter(x[k]);
      }
    }
  }

  /**
   * A dot whose letters-and-dots run, with the dots taken out and folded to
   * lower case, is an entry of the default non-terminal abbreviations is an
   * abbreviation dot: it leaves the whole scan state as it was, so it does
   * not start a sentence.
   */
  lemma ListedDotIsAbbreviation(m: string -> Option<string>, h: Option<WordSet>, text: string, i: int)
    requires 0 <= i < |text| && text[i] == '.'
    requires Lower(RemoveDots(DottedRun(text, i - 1, i + 1))) in NonTerminalAbbreviationEntries
    ensures AbbreviationAt(DefaultSentenceCaseLexicon(m, h), text, i)
    ensures forall st :: CharStep(DefaultSentenceCaseLexicon(m, h), text, i, st) == st
  {
    var lex := DefaultSentenceCaseLexicon(m, h);
    var key := Lower(RemoveDots(DottedRun(text, i - 1, i + 1)));
    LowerTwice(RemoveDots(DottedRun(text, i - 1, i + 1)));
    assert key in NonTerminalAbbreviationEntries && Lower(key) == Lower(key);
    assert lex.nonTerminalAbbreviations.Contains(key);
    forall st: ScanState
      ensures CharStep(lex, text, i, st) == st
    {
      TerminatorStartsSentence(lex, text, i, st);
    }
  }

  /** Scanning left over a run of letters and dots stops at the first position outside it. */
  lemma {:induction false} RunLeftStops(text: string, p: int, q: int)
    requires -1 <= q <= p < |text|
    requires forall k :: q < k <= p ==> IsLetterOrDot(text[k])
    requires q == -1 || !IsLetterOrDot(text[q])
    ensures RunLeft(text, p) == q
    decreases p - q
  {
    if q < p {
      RunLeftStops(text, p - 1, q);
    }
  }

  /**
   * A listed lower-case word without dots, standing on its own and followed
   * by a dot, makes that dot an abbreviation dot in the default lexicon:
   * the dot does not end the sentence.
   */
  lemma DotAfterListedWord(m: string -> Option<string>, h: Option<WordSet>, text: string, i: int, w: string)
    requires 0 < |w| <= i < |text| && text[i] == '.' && text[i - |w|..i] == w
    requires w in NonTerminalAbbreviationEntries && forall k :: 0 <= k < |w| ==> IsLower(w[k])
    requires i - |w| == 0 || !IsLetterOrDot(text[i - |w| - 1])
    requires i + 1 == |text| || !IsLetterOrDot(text[i + 1])
    ensures AbbreviationAt(DefaultSentenceCaseLexicon(m, h), text, i)
    ensures forall st :: CharStep(DefaultSentenceCaseLexicon(m, h), text, i, st) == st
  {
    WordRunKey(text, i, w);
    ListedDotIsAbbreviation(m, h, text, i);
  }

  /** The run around a dot right after a lower-case word standing on its own is looked up as that word. */
  lemma WordRunKey(text: string, i: int, w: string)
    requires 0 < |w| <= i < |text| && text[i] == '.' && text[i - |w|..i] == w
    requires forall k :: 0 <= k < |w| ==> IsLower(w[k])
    requires i - |w| == 0 || !IsLetterOrDot(text[i - |w| - 1])
    requires i + 1 == |text| || !IsLetterOrDot(text[i + 1])
    ensures Lower(RemoveDots(DottedRun(text, i - 1, i + 1))) == w
  {
    WordRun(text, i, w);
    assert '.' !in w by {
      assert forall k :: 0 <= k < |w| ==> w[k] != '.';
    }
    WordDotKeys(w);
    LowerOfLower(w);
  }

  /** That run is the word and its dot. */
  lemma WordRun(text: string, i: int, w: string)
    requires 0 < |w| <= i < |text| && text[i] == '.' && text[i - |w|..i] == w
    requires forall k :: 0 <= k < |w| ==> IsLower(w[k])
    requires i - |w| == 0 || !IsLetterOrDot(text[i - |w| - 1])
    requires i + 1 == |text| || !IsLetterOrDot(text[i + 1])
    ensures DottedRun(text, i - 1, i + 1) == w + "."
  {
    var q := i - |w| - 1;
    forall k | q < k <= i - 1
      ensures IsLetterOrDot(text[k])
    {
      assert text[k] == text[i - |w|..i][k - q - 1];
    }
    RunLeftStops(text, i - 1, q);
    assert RunRight(text, i + 1) == i + 1;
    assert text[q + 1..i + 1] == text[i - |w|..i] + [text[i]];
  }

  /** A word of lower-case letters is its own lower case. */
  lemma LowerOfLower(w: string)
    requires forall k :: 0 <= k < |w| ==> IsLower(w[k])
    ensures Lower(w) == w
  {
  }

  /** "us" is a non-terminal abbreviation in the default lexicon, so the dot in "like us. then" does not end the sentence. */
  lemma ObjectPronounIsAnAbbreviation(m: string -> Option<string>, h: Option<WordSet>)
    ensures AbbreviationAt(DefaultSentenceCaseLexicon(m, h), "like us. then", 7)
  {
    UsShape("like us. then");
    UsIsListed();
    DotAfterListedWord(m, h, "like us. then", 7, "us");
  }

  lemma UsShape(text: string)
    requires text == "like us. then"
    ensures text[7] == '.' && text[5..7] == "us" && !IsLetterOrDot(text[4]) && !IsLetterOrDot(text[8])
    ensures forall k :: 0 <= k < |"us"| ==> IsLower("us"[k])
  {
  }

  lemma UsIsListed()
    ensures "us" in NonTerminalAbbreviationEntries
  {
  }

  // ---------------------------------------------------------------- an honorific carried over a dot

  const HonorificText := "dr. smith"

  /** What the example needs of a lexicon: "dr" is an honorific and a non-terminal abbreviation, and neither word is mapped. */
  predicate KnowsDoctor(lex: SentenceCaseLexicon)
  {
    lex.properCaseMap("dr").None? && lex.properCaseMap("smith").None?
    && IsHonorific(lex, "dr") && lex.nonTerminalAbbreviations.Contains("dr")
  }

  function AfterHonorific(lex: SentenceCaseLexicon): ScanState
  {
    InitialState.(atSentenceStart := false, prevWasHonorific := true, prevHonorificDepth := 0,
                  prevWasBrand := lex.brandTokens.Contains("Dr"))
  }

  lemma HonorificFirstToken(lex: SentenceCaseLexicon, opt: SentenceCaseOptions)
    requires KnowsDoctor(lex)
    ensures TokenEnd(HonorificText, 0) == 2
    ensures TokenStep(lex, opt, HonorificText, 0, 2, InitialState) == ("Dr", AfterHonorific(lex))
  {
    var text := HonorificText;
    assert !IsTokenChar(text[2]);
    assert text[0..2] == "dr";
    assert Lower("dr") == "dr";
    assert UpperFirstLowerRest("dr") == "Dr";
    assert !ContainsDigit("dr");
  }

  lemma HonorificDotAndSpace(lex: SentenceCaseLexicon)
    requires KnowsDoctor(lex)
    ensures CharStep(lex, HonorificText, 2, AfterHonorific(lex)) == AfterHonorific(lex)
    ensures CharStep(lex, HonorificText, 3, AfterHonorific(lex)) == AfterHonorific(lex)
  {
    var text := HonorificText;
    assert RunLeft(text, 1) == -1;
    assert RunRight(text, 3) == 3;
    assert DottedRun(text, 1, 3) == "dr.";
    DrDotKey();
    DrFolded();
    assert AbbreviationAt(lex, text, 2);
  }

  lemma DrFolded()
    ensures Lower("dr") == "dr"
  {
  }

  lemma DrDotKey()
    ensures RemoveDots("dr.") == "dr"
  {
    assert "dr." == "dr" + ".";
    WordDotKeys("dr");
  }

  lemma HonorificName(lex: SentenceCaseLexicon, opt: SentenceCaseOptions)
    requires KnowsDoctor(lex)
    ensures TokenEnd(HonorificText, 4) == 9
    ensures TokenStep(lex, opt, HonorificText, 4, 9, AfterHonorific(lex)).0 == "Smith"
  {
    var text := HonorificText;
    assert text[4..9] == "smith";
    assert UpperFirstLowerRest("smith") == "Smith";
  }

  /** The honorific "dr" capitalises itself at sentence start and carries a capital to the name after its dot. */
  lemma HonorificExample(lex: SentenceCaseLexicon, opt: SentenceCaseOptions)
    requires KnowsDoctor(lex)
    ensures ToSentenceCase(lex, opt, HonorificText) == "Dr. Smith"
  {
    HonorificScan(lex, opt, HonorificText);
    HonorificTextHasNoCr();
    ScannedWithoutCr(lex, opt, HonorificText, "Dr. Smith");
  }

  lemma HonorificTextHasNoCr()
    ensures |HonorificText| == 9 && '\r' !in HonorificText
  {
  }

  /** A text without carriage returns is scanned as it is. */
  lemma ScannedWithoutCr(lex: SentenceCaseLexicon, opt: SentenceCaseOptions, input: string, r: string)
    requires |input| > 0 && '\r' !in input && SentenceFrom(lex, opt, input, 0, InitialState) == r
    ensures ToSentenceCase(lex, opt, input) == r
  {
    NormalizeWithoutCr(input);
  }

  lemma HonorificScan(lex: SentenceCaseLexicon, opt: SentenceCaseOptions, text: string)
    requires KnowsDoctor(lex) && text == HonorificText
    ensures SentenceFrom(lex, opt, text, 0, InitialState) == "Dr. Smith"
  {
    HonorificFirstToken(lex, opt);
    HonorificDotAndSpace(lex);
    HonorificName(lex, opt);
    assert text[2] == '.' && text[3] == ' ' && IsLetterOrDigit(text[0]) && IsLetterOrDigit(text[4]);
    HonorificSteps(lex, opt, text, AfterHonorific(lex));
  }

  /** The four steps of the example put together, for any text that takes them. */
  lemma HonorificSteps(lex: SentenceCaseLexicon, opt: SentenceCaseOptions, text: string, s1: ScanState)
    requires |text| == 9 && IsLetterOrDigit(text[0]) && text[2] == '.' && text[3] == ' ' && IsLetterOrDigit(text[4])
    requires TokenEnd(text, 0) == 2 && TokenStep(lex, opt, text, 0, 2, InitialState) == ("Dr", s1)
    requires CharStep(lex, text, 2, s1) == s1 && CharStep(lex, text, 3, s1) == s1
    requires TokenEnd(text, 4) == 9 && TokenStep(lex, opt, text, 4, 9, s1).0 == "Smith"
    ensures SentenceFrom(lex, opt, text, 0, InitialState) == "Dr. Smith"
  {
    SentenceFromAtToken(lex, opt, text, 4, s1);
    assert SentenceFrom(lex, opt, text, 9, TokenStep(lex, opt, text, 4, 9, s1).1) == [];
    SentenceFromAtChar(lex, opt, text, 3, s1);
    SentenceFromAtChar(lex, opt, text, 2, s1);
    SentenceFromAtToken(lex, opt, text, 0, InitialState);
    HonorificPieces();
  }

  lemma HonorificPieces()
    ensures "Dr" + (['.'] + ([' '] + "Smith")) == "Dr. Smith"
  {
  }

  /** The default lexicon, given "dr" as an honorific and no map entries for the two words, knows the doctor. */
  lemma DefaultKnowsDoctor(m: string -> Option<string>)
    requires m("dr").None? && m("smith").None?
    ensures KnowsDoctor(DefaultSentenceCaseLexicon(m, Some(WordSet({"dr"}, true))))
  {
    assert Lower("dr") == "dr";
    assert "dr" in NonTerminalAbbreviationEntries;
  }
  // ---------------------------------------------------------------- sentence starts at work

  /** What the example needs of a lexicon: none of its words is mapped, and "world" is no abbreviation. */
  predicate KnowsPlainWords(lex: SentenceCaseLexicon)
  {
    lex.properCaseMap("hello").None? && lex.properCaseMap("world").None? && lex.properCaseMap("ok").None?
    && !lex.nonTerminalAbbreviations.Contains("world")
  }

  /** A lower-case word of letters is capitalised at a sentence start by the last rule of the cascade. */
  lemma PlainWordAtStart(lex: SentenceCaseLexicon, opt: SentenceCaseOptions, text: string, start: int, i: int, st: ScanState)
    requires 0 <= start < i <= |text| && st.atSentenceStart && i - start >= 2
    requires lex.properCaseMap(text[start..i]).None?
    requires forall k :: start <= k < i ==> IsLower(text[k])
    ensures TokenStep(lex, opt, text, start, i, st).0 == UpperFirstLowerRest(text[start..i])
    ensures !TokenStep(lex, opt, text, start, i, st).1.atSentenceStart
  {
    var token := text[start..i];
    assert !IsUpper(token[0]) && !IsDigit(token[0]) && !IsApostrophe(token[0]);
    assert !ContainsDigit(token) && !ContainsApostrophe(token);
    StartTokenCapitalises(lex, opt, text, start, i, st);
  }

  /** A token that runs over [i, e) and stops at a character that is no token character. */
  lemma TokenEndAt(text: string, i: int, e: int)
    requires 0 <= i <= e < |text| && !IsTokenChar(text[e])
    requires forall k :: i <= k < e ==> IsLower(text[k])
    ensures TokenEnd(text, i) == e
  {
  }

  /** The shape of "hello\nworld. ok." that the scan needs, from its characters alone. */
  predicate StartsShape(text: string)
  {
    |text| == 16 && text[5] == '\n' && text[11] == '.' && text[12] == ' ' && text[15] == '.'
    && (forall k :: 0 <= k < 5 ==> IsLower(text[k]))
    && (forall k :: 6 <= k < 11 ==> IsLower(text[k]))
    && IsLower(text[13]) && IsLower(text[14])
  }

  lemma StartsTextShape(text: string)
    requires text == "hello\nworld. ok."
    ensures StartsShape(text)
    ensures text[0..5] == "hello" && text[6..11] == "world" && text[13..15] == "ok"
  {
  }

  lemma StartsTokens(text: string)
    requires StartsShape(text)
    ensures TokenEnd(text, 0) == 5 && TokenEnd(text, 6) == 11 && TokenEnd(text, 13) == 15
  {
    TokenEndAt(text, 0, 5);
    TokenEndAt(text, 6, 11);
    TokenEndAt(text, 13, 15);
  }

  lemma StartsDot(text: string)
    requires StartsShape(text)
    ensures !DecimalPoint(text, 11) && WordFollows(text, 12)
    ensures DottedRun(text, 10, 12) == text[6..11] + "."
  {
    assert !IsWhiteSpace(text[13]) && !IsWrapper(text[13]);
    assert !IsLetterOrDot(text[5]);
    assert RunLeft(text, 10) == 5;
    assert RunRight(text, 12) == 12;
    assert text[6..12] == text[6..11] + [text[11]];
  }

  /** The dotted run "w." of a word w without dots is looked up as w, both ways. */
  lemma WordDotKeys(w: string)
    requires '.' !in w && w != [] && w[|w| - 1] != '.'
    ensures RemoveDots(w + ".") == w && DropTrailingDots(w + ".") == w
  {
    RemoveDotsConcat(w, ".");
    RemoveDotsWithoutDots(w);
    assert RemoveDots(".") == [];
    assert (w + ".")[..|w|] == w;
  }

  lemma HelloCapitalised()
    ensures UpperFirstLowerRest("hello") == "Hello"
  {
    assert Lower("ello") == "ello";
  }

  lemma WorldCapitalised()
    ensures UpperFirstLowerRest("world") == "World" && Lower("world") == "world"
  {
    assert Lower("orld") == "orld";
  }

  lemma OkCapitalised()
    ensures UpperFirstLowerRest("ok") == "Ok"
  {
    assert Lower("k") == "k";
  }

  /** The sentence end, the space, the last word and the final dot. */
  lemma StartsTail(lex: SentenceCaseLexicon, opt: SentenceCaseOptions, text: string, s3: ScanState)
    requires StartsShape(text) && TokenEnd(text, 13) == 15
    requires lex.properCaseMap(text[13..15]).None?
    requires !DecimalPoint(text, 11) && !AbbreviationAt(lex, text, 11) && WordFollows(text, 12)
    ensures SentenceFrom(lex, opt, text, 11, s3) == ". " + UpperFirstLowerRest(text[13..15]) + "."
  {
    TerminatorStartsSentence(lex, text, 11, s3);
    var s4 := CharStep(lex, text, 11, s3);
    StartsLastWord(lex, opt, text, s4);
    SentenceFromAtChar(lex, opt, text, 11, s3);
    TailPieces(UpperFirstLowerRest(text[13..15]));
  }

  /** The space after the sentence end keeps it armed, so the last word is capitalised. */
  lemma StartsLastWord(lex: SentenceCaseLexicon, opt: SentenceCaseOptions, text: string, s4: ScanState)
    requires StartsShape(text) && TokenEnd(text, 13) == 15 && s4.atSentenceStart
    requires lex.properCaseMap(text[13..15]).None?
    ensures SentenceFrom(lex, opt, text, 12, s4) == [' '] + (UpperFirstLowerRest(text[13..15]) + (['.'] + []))
  {
    assert CharStep(lex, text, 12, s4) == s4;
    PlainWordAtStart(lex, opt, text, 13, 15, s4);
    var s6 := TokenStep(lex, opt, text, 13, 15, s4).1;
    assert SentenceFrom(lex, opt, text, 16, CharStep(lex, text, 15, s6)) == [];
    SentenceFromAtChar(lex, opt, text, 15, s6);
    SentenceFromAtToken(lex, opt, text, 13, s4);
    SentenceFromAtChar(lex, opt, text, 12, s4);
  }

  lemma TailPieces(c: string)
    ensures ['.'] + ([' '] + (c + (['.'] + []))) == ". " + c + "."
  {
  }

  /** The second word at its sentence start, then the tail. */
  lemma StartsMiddle(lex: SentenceCaseLexicon, opt: SentenceCaseOptions, text: string, s2: ScanState, tail: string)
    requires StartsShape(text) && TokenEnd(text, 6) == 11 && s2.atSentenceStart
    requires lex.properCaseMap(text[6..11]).None?
    requires SentenceFrom(lex, opt, text, 11, TokenStep(lex, opt, text, 6, 11, s2).1) == tail
    ensures SentenceFrom(lex, opt, text, 6, s2) == UpperFirstLowerRest(text[6..11]) + tail
  {
    PlainWordAtStart(lex, opt, text, 6, 11, s2);
    SentenceFromAtToken(lex, opt, text, 6, s2);
  }

  /** The first word, the line break that arms the next sentence, and the rest. */
  lemma StartsHead(lex: SentenceCaseLexicon, opt: SentenceCaseOptions, text: string, rest: string)
    requires StartsShape(text) && TokenEnd(text, 0) == 5
    requires lex.properCaseMap(text[0..5]).None?
    requires var s1 := TokenStep(lex, opt, text, 0, 5, InitialState).1;
      SentenceFrom(lex, opt, text, 6, CharStep(lex, text, 5, s1)) == rest
    ensures SentenceFrom(lex, opt, text, 0, InitialState) == UpperFirstLowerRest(text[0..5]) + "\n" + rest
  {
    PlainWordAtStart(lex, opt, text, 0, 5, InitialState);
    var s1 := TokenStep(lex, opt, text, 0, 5, InitialState).1;
    SentenceFromAtChar(lex, opt, text, 5, s1);
    SentenceFromAtToken(lex, opt, text, 0, InitialState);
    HeadPieces(UpperFirstLowerRest(text[0..5]), rest);
  }

  lemma HeadPieces(a: string, rest: string)
    ensures a + (['\n'] + rest) == a + "\n" + rest
  {
  }

  /** The three steps put together, for any text of the example's shape. */
  lemma StartsSteps(lex: SentenceCaseLexicon, opt: SentenceCaseOptions, text: string)
    requires StartsShape(text)
    requires lex.properCaseMap(text[0..5]).None? && lex.properCaseMap(text[6..11]).None?
    requires lex.properCaseMap(text[13..15]).None? && !AbbreviationAt(lex, text, 11)
    ensures SentenceFrom(lex, opt, text, 0, InitialState)
            == UpperFirstLowerRest(text[0..5]) + "\n" + (UpperFirstLowerRest(text[6..11])
               + (". " + UpperFirstLowerRest(text[13..15]) + "."))
  {
    StartsTokens(text);
    StartsDot(text);
    var tail := ". " + UpperFirstLowerRest(text[13..15]) + ".";
    var s1 := TokenStep(lex, opt, text, 0, 5, InitialState).1;
    PlainWordAtStart(lex, opt, text, 0, 5, InitialState);
    NewlineStartsSentence(lex, text, 5, s1);
    var s2 := CharStep(lex, text, 5, s1);
    var s3 := TokenStep(lex, opt, text, 6, 11, s2).1;
    StartsTail(lex, opt, text, s3);
    StartsMiddle(lex, opt, text, s2, tail);
    StartsHead(lex, opt, text, UpperFirstLowerRest(text[6..11]) + tail);
  }

  /** "world." around the sentence end is no known abbreviation. */
  lemma WorldIsNoAbbreviation(lex: SentenceCaseLexicon, text: string)
    requires KnowsPlainWords(lex) && StartsShape(text) && text[6..11] == "world"
    ensures !AbbreviationAt(lex, text, 11)
  {
    StartsDot(text);
    WordDotKeys("world");
    WorldCapitalised();
  }

  lemma StartsScan(lex: SentenceCaseLexicon, opt: SentenceCaseOptions, text: string)
    requires KnowsPlainWords(lex) && text == "hello\nworld. ok."
    ensures SentenceFrom(lex, opt, text, 0, InitialState)
            == UpperFirstLowerRest("hello") + "\n" + (UpperFirstLowerRest("world") + (". " + UpperFirstLowerRest("ok") + "."))
  {
    StartsTextShape(text);
    WorldIsNoAbbreviation(lex, text);
    StartsSteps(lex, opt, text);
  }

  /**
   * A line break and a sentence end each arm the sentence start, and the
   * word after each is capitalised: "hello\r\nworld. ok." becomes
   * "Hello\nWorld. Ok.".
   */
  lemma SentenceStartExample(lex: SentenceCaseLexicon, opt: SentenceCaseOptions)
    requires KnowsPlainWords(lex)
    ensures ToSentenceCase(lex, opt, "hello\r\nworld. ok.") == "Hello\nWorld. Ok."
  {
    StartsSplit();
    StartsScan(lex, opt, "hello" + "\n" + "world. ok.");
    HelloCapitalised();
    WorldCapitalised();
    OkCapitalised();
    StartsResult();
    ScannedWithCrLf(lex, opt, "hello", "world. ok.", "Hello\nWorld. Ok.");
  }

  lemma StartsSplit()
    ensures "hello" + "\n" + "world. ok." == "hello\nworld. ok."
    ensures "hello\r\nworld. ok." == "hello" + "\r\n" + "world. ok."
    ensures '\r' !in "hello" && '\r' !in "world. ok."
  {
  }

  lemma StartsResult()
    ensures "Hello" + "\n" + ("World" + (". " + "Ok" + ".")) == "Hello\nWorld. Ok."
  {
  }

  /** A text with one CRLF is scanned with a line feed in its place. */
  lemma ScannedWithCrLf(lex: SentenceCaseLexicon, opt: SentenceCaseOptions, a: string, b: string, r: string)
    requires '\r' !in a && '\r' !in b && SentenceFrom(lex, opt, a + "\n" + b, 0, InitialState) == r
    ensures ToSentenceCase(lex, opt, a + "\r\n" + b) == r
  {
    NormalizeCrLf(a, b);
  }

  /** Only one default non-terminal abbreviation has five characters, and it has a dot. */
  lemma NonTerminalLengths()
    ensures forall e :: e in NonTerminalAbbreviationEntries ==> |e| != 5 || e == "u.s.a"
  {
  }

  /** A word of at most four characters, or one with a dot, folds to something other than "world". */
  lemma NotWorld(e: string)
    requires |e| != 5 || e == "u.s.a"
    ensures Lower(e) != "world"
  {
    if |e| == 5 {
      assert Lower(e)[1] == ToLower(e[1]) == '.';
    }
  }

  /** The default lexicon knows the example's words, whatever its honorifics, when its map leaves them alone. */
  lemma DefaultKnowsPlainWords(m: string -> Option<string>, h: Option<WordSet>)
    requires m("hello").None? && m("world").None? && m("ok").None?
    ensures KnowsPlainWords(DefaultSentenceCaseLexicon(m, h))
  {
    WorldCapitalised();
    if WordSet(NonTerminalAbbreviationEntries, true).Contains("world") {
      var e :| e in NonTerminalAbbreviationEntries && Lower(e) == Lower("world");
      NonTerminalLengths();
      NotWorld(e);
    }
  }
}
