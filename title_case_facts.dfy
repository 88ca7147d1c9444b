/**
 * Properties of the title-case converter, stated about the pure scan
 * (TitleFrom, WordCase, SegmentCase) that the imperative converter is
 * proved equal to.
 */
module TitleCaseFacts {
  import opened Chars
  import opened Text
  import opened Wrappers
  import opened Lexicon
  import opened TokenShape
  import opened TitleCase

  // ---------------------------------------------------------------- only case changes

  lemma CaseVariantOfItself(s: string)
    ensures CaseVariant(s, s)
  {
  }

  /** Every rule of the segment cascade re-cases the segment, given a proper-case map that does. */
  lemma SegmentCaseKeepsCase(c: TitleCaser, seg: string, isFirstWord: bool, isLastWord: bool, force: bool)
    requires MapKeepsCase(c.commonLex)
    ensures CaseVariant(SegmentCase(c, seg, isFirstWord, isLastWord, force), seg)
  {
    match c.commonLex.properCaseMap(seg) {
      case Some(proper) =>
      case None =>
        LowerUpperAreCaseVariants(seg);
        CapApostrophesShape(seg);
        CaseVariantOfItself(seg);
    }
  }

  /** Splitting at the hyphens and joining again gives the text back. */
  lemma {:induction false} JoinSplitFrom(t: string, i: int)
    requires 0 <= i <= |t|
    ensures JoinDash(SplitFrom(t, i)) == t[i..]
    decreases |t| - i
  {
    var e := DashFrom(t, i);
    if e < |t| {
      JoinSplitFrom(t, e + 1);
      SplitAtDash(t, i);
      JoinAtDash(t, i, e, SplitFrom(t, e + 1));
    } else {
      assert SplitFrom(t, i) == [t[i..]];
    }
  }

  /** At a hyphen the split gives the segment before it, then the split of the rest. */
  lemma SplitAtDash(t: string, i: int)
    requires 0 <= i <= |t| && DashFrom(t, i) < |t|
    ensures SplitFrom(t, i) == [t[i..DashFrom(t, i)]] + SplitFrom(t, DashFrom(t, i) + 1)
  {
  }

  /** The segment before a hyphen, joined to the parts that make up the rest, makes up the whole. */
  lemma JoinAtDash(t: string, i: int, e: int, rest: seq<string>)
    requires 0 <= i <= e < |t| && t[e] == '-'
    requires |rest| >= 1 && JoinDash(rest) == t[e + 1..]
    ensures JoinDash([t[i..e]] + rest) == t[i..]
  {
    assert ([t[i..e]] + rest)[1..] == rest;
    assert t[i..] == t[i..e] + [t[e]] + t[e + 1..];
  }

  /** Joining part by part case variants gives a case variant of the joined parts. */
  lemma {:induction false} JoinKeepsCase(outs: seq<string>, parts: seq<string>)
    requires |outs| == |parts| >= 1
    requires forall j :: 0 <= j < |parts| ==> CaseVariant(outs[j], parts[j])
    ensures CaseVariant(JoinDash(outs), JoinDash(parts))
    decreases |parts|
  {
    if |parts| > 1 {
      JoinKeepsCase(outs[1..], parts[1..]);
      CaseVariantOfItself("-");
      CaseVariantConcat(outs[0], parts[0], "-", "-");
      CaseVariantConcat(outs[0] + "-", parts[0] + "-", JoinDash(outs[1..]), JoinDash(parts[1..]));
    }
  }

  /** A word, hyphenated or not, is re-cased: its hyphens, apostrophes and digits stay where they were. */
  lemma WordCaseKeepsCase(c: TitleCaser, token: string, isFirstWord: bool, isLastWord: bool, colon: bool)
    requires MapKeepsCase(c.commonLex)
    ensures CaseVariant(WordCase(c, token, isFirstWord, isLastWord, colon), token)
  {
    if '-' in token && c.opt.capitalizeHyphenatedSegments {
      var parts := SplitDash(token);
      var outs := SegmentOutputs(c, token, isFirstWord, isLastWord, colon);
      forall j | 0 <= j < |parts| ensures CaseVariant(outs[j], parts[j]) {
        if |parts[j]| > 0 {
          SegmentCaseKeepsCase(c, parts[j], isFirstWord, isLastWord,
                               MustCap(c, isFirstWord, isLastWord, colon) || j == 0 || j == |parts| - 1);
        }
      }
      JoinKeepsCase(outs, parts);
      JoinSplitFrom(token, 0);
      assert token[0..] == token;
    } else {
      SegmentCaseKeepsCase(c, token, isFirstWord, isLastWord, colon);
    }
  }

  lemma {:induction false} TitleFromKeepsCase(c: TitleCaser, text: string, i: int, force: bool, firstStart: int, lastStart: int)
    requires MapKeepsCase(c.commonLex) && 0 <= i <= |text|
    ensures CaseVariant(TitleFrom(c, text, i, force, firstStart, lastStart), text[i..])
    decreases |text| - i
  {
    if i < |text| {
      if IsLetterOrDigit(text[i]) {
        TitleFromKeepsCase(c, text, WordEnd(text, i), false, firstStart, lastStart);
        WordKeepsCase(c, text, i, force, firstStart, lastStart);
      } else {
        TitleFromKeepsCase(c, text, i + 1, force || (c.opt.capitalizeAfterColon && text[i] == ':'), firstStart, lastStart);
        SeparatorKeepsCase(c, text, i, force, firstStart, lastStart);
      }
    }
  }

  lemma WordKeepsCase(c: TitleCaser, text: string, i: int, force: bool, firstStart: int, lastStart: int)
    requires MapKeepsCase(c.commonLex) && 0 <= i < |text| && IsLetterOrDigit(text[i])
    requires CaseVariant(TitleFrom(c, text, WordEnd(text, i), false, firstStart, lastStart), text[WordEnd(text, i)..])
    ensures CaseVariant(TitleFrom(c, text, i, force, firstStart, lastStart), text[i..])
  {
    var e := WordEnd(text, i);
    var w := WordCase(c, text[i..e], i == firstStart, i == lastStart, force);
    WordCaseKeepsCase(c, text[i..e], i == firstStart, i == lastStart, force);
    NextWord(c, text, i, force, firstStart, lastStart);
    CaseVariantConcat(w, text[i..e], TitleFrom(c, text, e, false, firstStart, lastStart), text[e..]);
    SliceSplit(text, i, e);
  }

  lemma SeparatorKeepsCase(c: TitleCaser, text: string, i: int, force: bool, firstStart: int, lastStart: int)
    requires 0 <= i < |text| && !IsLetterOrDigit(text[i])
    requires CaseVariant(TitleFrom(c, text, i + 1, force || (c.opt.capitalizeAfterColon && text[i] == ':'), firstStart, lastStart), text[i + 1..])
    ensures CaseVariant(TitleFrom(c, text, i, force, firstStart, lastStart), text[i..])
  {
    var rest := TitleFrom(c, text, i + 1, force || (c.opt.capitalizeAfterColon && text[i] == ':'), firstStart, lastStart);
    NextSeparator(c, text, i, force, firstStart, lastStart);
    CaseVariantOfItself([text[i]]);
    CaseVariantConcat([text[i]], [text[i]], rest, text[i + 1..]);
    SliceCons(text, i);
  }

  /**
   * The converter only changes the case of letters: the result has the
   * length of the newline-unified input, the same characters up to case,
   * and exactly the same separators, digits, hyphens and apostrophes.
   */
  lemma TitleCaseKeepsText(c: TitleCaser, input: string)
    requires MapKeepsCase(c.commonLex)
    ensures CaseVariant(ToTitleCase(c, input), NormalizeNewlines(input))
    ensures forall k :: 0 <= k < |NormalizeNewlines(input)| && !IsLetter(NormalizeNewlines(input)[k])
              ==> ToTitleCase(c, input)[k] == NormalizeNewlines(input)[k]
  {
    var text := NormalizeNewlines(input);
    NormalizedHasNoCr(input);
    if |input| > 0 {
      TitleFromKeepsCase(c, text, 0, false, FirstWordStart(text), LastWordStart(text));
      assert text[0..] == text;
    }
    forall k | 0 <= k < |text| && !IsLetter(text[k])
      ensures ToTitleCase(c, input)[k] == text[k]
    {
      CaseVariantKeepsNonLetters(ToTitleCase(c, input), text, k);
    }
  }

  /** The empty text is returned unchanged. */
  lemma EmptyTitleUnchanged(c: TitleCaser)
    ensures ToTitleCase(c, "") == ""
  {
  }

  // ---------------------------------------------------------------- the segment cascade

  /** The proper-case map wins over every other rule. */
  lemma TitleMapWins(c: TitleCaser, seg: string, isFirstWord: bool, isLastWord: bool, force: bool)
    requires c.commonLex.properCaseMap(seg).Some?
    ensures SegmentCase(c, seg, isFirstWord, isLastWord, force) == c.commonLex.properCaseMap(seg).value
  {
  }

  /** Next, a segment whose upper-cased form is a whitelisted acronym is restored to it (gpu becomes GPU). */
  lemma AcronymRestored(c: TitleCaser, seg: string, isFirstWord: bool, isLastWord: bool, force: bool)
    requires c.commonLex.properCaseMap(seg).None? && c.opt.preserveAcronyms
    requires c.commonLex.upperAcronyms.Contains(Upper(seg))
    ensures SegmentCase(c, seg, isFirstWord, isLastWord, force) == Upper(seg)
  {
  }

  /** Next, a single letter is upper-cased, even when it is a small word (a becomes A). */
  lemma SingleLetterCapital(c: TitleCaser, seg: string, isFirstWord: bool, isLastWord: bool, force: bool)
    requires c.commonLex.properCaseMap(seg).None?
    requires !(c.opt.preserveAcronyms && c.commonLex.upperAcronyms.Contains(Upper(seg)))
    requires c.opt.uppercaseSingleLetterWords && |seg| == 1 && IsLetter(seg[0])
    ensures SegmentCase(c, seg, isFirstWord, isLastWord, force) == Upper(seg)
    ensures IsUpper(SegmentCase(c, seg, isFirstWord, isLastWord, force)[0])
  {
  }

  /**
   * The all-caps acronym rule can never decide a segment: a segment it
   * accepts is its own upper-cased form and is whitelisted, so the acronym
   * restoration before it has already returned that same segment.
   */
  lemma AllCapsRuleIsSubsumed(lex: SentenceCaseLexicon, seg: string)
    requires TitleAllCapsAcronym(lex, seg)
    ensures Upper(seg) == seg && lex.upperAcronyms.Contains(Upper(seg))
  {
    forall k | 0 <= k < |seg| ensures Upper(seg)[k] == seg[k] {
      assert !IsLower(seg[k]);
    }
  }

  /** None of the rules before the small-word rule decides the segment. */
  predicate ReachesSmallWordRule(c: TitleCaser, seg: string)
  {
    c.commonLex.properCaseMap(seg).None?
    && !(c.opt.preserveAcronyms && c.commonLex.upperAcronyms.Contains(Upper(seg)))
    && !(c.opt.uppercaseSingleLetterWords && |seg| == 1 && IsLetter(seg[0]))
    && !c.titleLex.protectedAsIs.Contains(seg)
    && !(c.opt.preserveCamelOrMixedCase && CamelOrMixed(seg))
  }

  /**
   * A small word is lower-cased unless a capital is forced (colon, or first
   * or last word with the option on); then, like every other word, it is
   * capitalised at its start and after each apostrophe.
   */
  lemma SmallWordRule(c: TitleCaser, seg: string, isFirstWord: bool, isLastWord: bool, force: bool)
    requires ReachesSmallWordRule(c, seg) && c.titleLex.smallWords.Contains(seg)
    ensures SegmentCase(c, seg, isFirstWord, isLastWord, force)
            == if MustCap(c, isFirstWord, isLastWord, force) then CapApostrophes(seg) else Lower(seg)
  {
    if c.opt.preserveAcronyms && TitleAllCapsAcronym(c.commonLex, seg) {
      AllCapsRuleIsSubsumed(c.commonLex, seg);
    }
  }

  /** A word that no rule keeps and that is not small is capitalised at its start and after each apostrophe. */
  lemma OtherWordRule(c: TitleCaser, seg: string, isFirstWord: bool, isLastWord: bool, force: bool)
    requires ReachesSmallWordRule(c, seg) && !c.titleLex.smallWords.Contains(seg)
    ensures SegmentCase(c, seg, isFirstWord, isLastWord, force) == CapApostrophes(seg)
  {
    if c.opt.preserveAcronyms && TitleAllCapsAcronym(c.commonLex, seg) {
      AllCapsRuleIsSubsumed(c.commonLex, seg);
    }
  }

  // ---------------------------------------------------------------- hyphenated words

  /**
   * In a hyphenated word the first and the last segment are forced to a
   * capital, and so is every segment of a word that is itself forced (colon,
   * or first or last word with the option on); the other segments are not.
   */
  lemma SegmentForcing(c: TitleCaser, token: string, isFirstWord: bool, isLastWord: bool, colon: bool, j: int)
    requires 0 <= j < |SplitDash(token)| && |SplitDash(token)[j]| > 0
    ensures var parts := SplitDash(token);
      SegmentOutputs(c, token, isFirstWord, isLastWord, colon)[j]
      == SegmentCase(c, parts[j], isFirstWord, isLastWord,
                     j == 0 || j == |parts| - 1 || MustCap(c, isFirstWord, isLastWord, colon))
  {
  }

  /** Empty segments (from doubled, leading or trailing hyphens) stay empty, so the hyphens are all kept. */
  lemma EmptySegmentsStayEmpty(c: TitleCaser, token: string, isFirstWord: bool, isLastWord: bool, colon: bool, j: int)
    requires 0 <= j < |SplitDash(token)| && SplitDash(token)[j] == ""
    ensures SegmentOutputs(c, token, isFirstWord, isLastWord, colon)[j] == ""
  {
  }

  /** The parts of a split hold no hyphen. */
  lemma {:induction false} SplitPartsHaveNoDash(t: string, i: int)
    requires 0 <= i <= |t|
    ensures forall j :: 0 <= j < |SplitFrom(t, i)| ==> '-' !in SplitFrom(t, i)[j]
    decreases |t| - i
  {
    var e := DashFrom(t, i);
    assert '-' !in t[i..e];
    if e < |t| {
      SplitPartsHaveNoDash(t, e + 1);
      assert SplitFrom(t, i) == [t[i..e]] + SplitFrom(t, e + 1);
    } else {
      assert t[i..] == t[i..e];
    }
  }

  // ---------------------------------------------------------------- the colon rule

  /** A run of separators is copied; it forces the next word exactly when it holds a colon (option on). */
  lemma {:induction false} SeparatorRun(c: TitleCaser, text: string, i: int, j: int, force: bool, firstStart: int, lastStart: int)
    requires 0 <= i <= j <= |text|
    requires forall k :: i <= k < j ==> !IsLetterOrDigit(text[k])
    ensures TitleFrom(c, text, i, force, firstStart, lastStart)
            == text[i..j] + TitleFrom(c, text, j, force || (c.opt.capitalizeAfterColon && ':' in text[i..j]), firstStart, lastStart)
    decreases j - i
  {
    if i < j {
      var f1 := force || (c.opt.capitalizeAfterColon && text[i] == ':');
      SeparatorRun(c, text, i + 1, j, f1, firstStart, lastStart);
      ColonInSlice(text, i, j);
      NextSeparator(c, text, i, force, firstStart, lastStart);
    }
  }

  lemma ColonInSlice(text: string, i: int, j: int)
    requires 0 <= i < j <= |text|
    ensures text[i..j] == [text[i]] + text[i + 1..j]
    ensures (':' in text[i..j]) == (text[i] == ':' || ':' in text[i + 1..j])
  {
    assert text[i..j] == [text[i]] + text[i + 1..j];
  }

  lemma NextSeparator(c: TitleCaser, text: string, i: int, force: bool, firstStart: int, lastStart: int)
    requires 0 <= i < |text| && !IsLetterOrDigit(text[i])
    ensures TitleFrom(c, text, i, force, firstStart, lastStart)
            == [text[i]] + TitleFrom(c, text, i + 1, force || (c.opt.capitalizeAfterColon && text[i] == ':'), firstStart, lastStart)
  {
  }

  /**
   * After a colon (option on) the next word, across any separators, is cased
   * with a forced capital, and the flag is consumed by that word.
   */
  lemma ColonForcesNextWord(c: TitleCaser, text: string, i: int, j: int, force: bool, firstStart: int, lastStart: int)
    requires c.opt.capitalizeAfterColon
    requires 0 <= i < j < |text| && text[i] == ':' && IsLetterOrDigit(text[j])
    requires forall k :: i <= k < j ==> !IsLetterOrDigit(text[k])
    ensures var e := WordEnd(text, j);
      TitleFrom(c, text, i, force, firstStart, lastStart)
      == text[i..j] + WordCase(c, text[j..e], j == firstStart, j == lastStart, true) + TitleFrom(c, text, e, false, firstStart, lastStart)
  {
    SeparatorRun(c, text, i, j, force, firstStart, lastStart);
    assert text[i..j][0] == ':';
    NextWord(c, text, j, true, firstStart, lastStart);
  }

  /** Without a colon since the last word, the next word is not forced. */
  lemma NoColonNoForce(c: TitleCaser, text: string, i: int, j: int, firstStart: int, lastStart: int)
    requires 0 <= i <= j < |text| && IsLetterOrDigit(text[j])
    requires forall k :: i <= k < j ==> !IsLetterOrDigit(text[k]) && text[k] != ':'
    ensures var e := WordEnd(text, j);
      TitleFrom(c, text, i, false, firstStart, lastStart)
      == text[i..j] + WordCase(c, text[j..e], j == firstStart, j == lastStart, false) + TitleFrom(c, text, e, false, firstStart, lastStart)
  {
    SeparatorRun(c, text, i, j, false, firstStart, lastStart);
    assert ':' !in text[i..j];
    NextWord(c, text, j, false, firstStart, lastStart);
  }

  lemma NextWord(c: TitleCaser, text: string, j: int, force: bool, firstStart: int, lastStart: int)
    requires 0 <= j < |text| && IsLetterOrDigit(text[j])
    ensures var e := WordEnd(text, j);
      TitleFrom(c, text, j, force, firstStart, lastStart)
      == WordCase(c, text[j..e], j == firstStart, j == lastStart, force) + TitleFrom(c, text, e, false, firstStart, lastStart)
  {
  }

  // ---------------------------------------------------------------- first and last word

  /** WordEnd runs over every word character. */
  lemma {:induction false} WordEndPasses(s: string, i: int, j: int)
    requires 0 <= i <= j < |s|
    requires forall k :: i <= k < j ==> IsWordChar(s[k])
    requires IsWordChar(s[j])
    ensures WordEnd(s, i) > j
    decreases j - i
  {
    if i < j {
      assert IsWordChar(s[i]);
      WordEndPasses(s, i + 1, j);
    }
  }

  /**
   * The last-word start is -1 exactly when the text has no letter or digit.
   * Otherwise it begins the run of word characters that holds the last
   * letter or digit, and when a word starts there, no letter or digit comes
   * after that word: it is the last word.
   */
  lemma LastWordShape(s: string)
    ensures LastWordStart(s) == -1 <==> forall k :: 0 <= k < |s| ==> !IsLetterOrDigit(s[k])
    ensures var r := LastWordStart(s);
      r >= 0 && IsLetterOrDigit(s[r]) ==> forall k :: WordEnd(s, r) <= k < |s| ==> !IsLetterOrDigit(s[k])
  {
    var a := LastAlnum(s);
    if a >= 0 {
      var r := RunStart(s, a);
      WordEndPasses(s, r, a);
      assert LastWordStart(s) == r;
    }
  }

  /**
   * In "x 'it'" the backward scan stops on the opening quote, where no word
   * of the forward scan starts (words start at a letter or digit), so no
   * word is flagged as the last one.
   */
  lemma QuotedLastWord()
    ensures LastWordStart("x 'it'") == 2 && !IsLetterOrDigit("x 'it'"[2])
  {
    assert LastAlnum("x 'it'") == 4;
    assert RunStart("x 'it'", 4) == 2;
  }

  // ---------------------------------------------------------------- the default lexicons at work

  /** The default converter, for a proper-case map and honorific list given as parameters. */
  function DefaultCaser(m: string -> Option<string>, h: Option<WordSet>): TitleCaser
  {
    TitleCaser(DefaultTitleCaseLexicon, DefaultSentenceCaseLexicon(m, h), DefaultTitleCaseOptions)
  }

  /**
   * With the default lexicons, a small word written in one case (of, THE)
   * reaches the small-word rule unless the proper-case map knows it: it is no
   * acronym, and a small word of one letter is taken by the single-letter rule.
   */
  lemma DefaultSmallWordsReachTheRule(m: string -> Option<string>, h: Option<WordSet>, seg: string)
    requires m(seg).None? && DefaultTitleCaseLexicon.smallWords.Contains(seg) && |seg| != 1
    requires AllLowerLetters(seg) || AllUpperLetters(seg)
    ensures ReachesSmallWordRule(DefaultCaser(m, h), seg)
  {
    var e :| e in SmallWordEntries && Lower(e) == Lower(seg);
    SmallWordsAreNotAcronyms();
    UpperOfFolded(e, seg);
    SingleCaseIsNotCamel(seg);
  }

  /** Two words equal up to case upper-case alike. */
  lemma UpperOfFolded(a: string, b: string)
    requires Lower(a) == Lower(b)
    ensures Upper(a) == Upper(b)
  {
    forall k | 0 <= k < |a| ensures Upper(a)[k] == Upper(b)[k] {
      assert Lower(a)[k] == Lower(b)[k];
    }
  }

  /** "of" stays lower case in the middle of a title and is capitalised as its first word. */
  lemma DefaultSmallWordExample(m: string -> Option<string>, h: Option<WordSet>)
    requires m("of").None?
    ensures SegmentCase(DefaultCaser(m, h), "of", false, false, false) == "of"
    ensures SegmentCase(DefaultCaser(m, h), "of", true, false, false) == "Of"
  {
    OfIsSmall();
    DefaultSmallWordsReachTheRule(m, h, "of");
    SmallWordRule(DefaultCaser(m, h), "of", false, false, false);
    SmallWordRule(DefaultCaser(m, h), "of", true, false, false);
    OfPieces();
  }

  lemma OfIsSmall()
    ensures DefaultTitleCaseLexicon.smallWords.Contains("of")
  {
    assert "of" in SmallWords2;
    assert Lower("of") == Lower("of");
  }

  lemma OfPieces()
    ensures Lower("of") == "of" && CapApostrophes("of") == "Of"
  {
  }
  /** "THE" counts as small (the set ignores case) and is lower-cased in the middle of a title. */
  lemma DefaultUpperSmallWordExample(m: string -> Option<string>, h: Option<WordSet>)
    requires m("THE").None?
    ensures SegmentCase(DefaultCaser(m, h), "THE", false, false, false) == "the"
  {
    SmallWordsIgnoreCase();
    AllUpperThe();
    DefaultSmallWordsReachTheRule(m, h, "THE");
    SmallWordRule(DefaultCaser(m, h), "THE", false, false, false);
  }

  lemma AllUpperThe()
    ensures AllUpperLetters("THE") && Lower("THE") == "the"
  {
  }

  /** A whitelisted acronym written in lower case is restored: gpu becomes GPU. */
  lemma DefaultAcronymExample(m: string -> Option<string>, h: Option<WordSet>, isFirstWord: bool, isLastWord: bool, force: bool)
    requires m("gpu").None?
    ensures SegmentCase(DefaultCaser(m, h), "gpu", isFirstWord, isLastWord, force) == "GPU"
  {
    GpuIsAcronym();
    AcronymRestored(DefaultCaser(m, h), "gpu", isFirstWord, isLastWord, force);
  }

  lemma GpuIsAcronym()
    ensures Upper("gpu") == "GPU" && "GPU" in Acronyms1
  {
  }

  /** The small word "a" is a single letter, and single letters are upper-cased wherever they stand. */
  lemma DefaultSingleLetterExample(m: string -> Option<string>, h: Option<WordSet>)
    requires m("a").None?
    ensures SegmentCase(DefaultCaser(m, h), "a", false, false, false) == "A"
  {
    SmallWordsAreNotAcronyms();
    LetterA();
    SingleLetterCapital(DefaultCaser(m, h), "a", false, false, false);
  }

  lemma NonEmptyTitle(c: TitleCaser, input: string)
    requires |NormalizeNewlines(input)| > 0
    ensures var text := NormalizeNewlines(input);
      ToTitleCase(c, input) == TitleFrom(c, text, 0, false, FirstWordStart(text), LastWordStart(text))
  {
  }

  lemma LetterA()
    ensures "a" in SmallWords0 && Upper("a") == "A"
  {
  }

  /**
   * The first word of the text is cased as the first word, and with a forced
   * capital exactly when a colon (option on) precedes it.
   */
  lemma FirstWordIsFlagged(c: TitleCaser, input: string)
    requires var text := NormalizeNewlines(input); FirstWordStart(text) >= 0
    ensures var text := NormalizeNewlines(input);
      var r := FirstWordStart(text);
      var e := WordEnd(text, r);
      ToTitleCase(c, input)
      == text[..r] + WordCase(c, text[r..e], true, r == LastWordStart(text), c.opt.capitalizeAfterColon && ':' in text[..r])
         + TitleFrom(c, text, e, false, r, LastWordStart(text))
  {
    var text := NormalizeNewlines(input);
    NonEmptyTitle(c, input);
    FirstWordScan(c, text, FirstWordStart(text), LastWordStart(text));
  }

  lemma FirstWordScan(c: TitleCaser, text: string, r: int, lastStart: int)
    requires r == FirstWordStart(text) && r >= 0
    ensures var e := WordEnd(text, r);
      TitleFrom(c, text, 0, false, r, lastStart)
      == text[..r] + WordCase(c, text[r..e], true, r == lastStart, c.opt.capitalizeAfterColon && ':' in text[..r])
         + TitleFrom(c, text, e, false, r, lastStart)
  {
    assert text[0..r] == text[..r];
    var colon := c.opt.capitalizeAfterColon && ':' in text[..r];
    SeparatorRun(c, text, 0, r, false, r, lastStart);
    NextWord(c, text, r, colon, r, lastStart);
  }
}
