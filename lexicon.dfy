/**
 * The word lists and options that parameterise the two casing converters:
 * the lexicon interfaces and option classes as plain values, and the two
 * default lexicons with their constant sets and comparers.
 */
module Lexicon {
  import opened Chars
  import opened Wrappers

  /**
   * A set of strings with its comparer: case-insensitive (OrdinalIgnoreCase)
   * or exact (Ordinal).
   */
  datatype WordSet = WordSet(entries: set<string>, ignoreCase: bool)
  {
    predicate Contains(s: string)
    {
      if ignoreCase then exists e :: e in entries && Lower(e) == Lower(s) else s in entries
    }
  }

  /** A case-insensitive set answers alike for two case variants. */
  lemma ContainsIgnoresCase(w: WordSet, a: string, b: string)
    requires w.ignoreCase && CaseVariant(a, b)
    ensures w.Contains(a) == w.Contains(b)
  {
    CaseVariantFacts(a, b);
  }

  /**
   * The sentence-case lexicon. ProperCaseMap and HonorificBases are read by
   * both converters although the interface does not declare them; the map's
   * comparer is not known, so it is any lookup function, and HonorificBases
   * is optional because it is read null-conditionally.
   */
  datatype SentenceCaseLexicon = SentenceCaseLexicon(
    nonTerminalAbbreviations: WordSet,
    upperShortStopwords: WordSet,
    upperAcronyms: WordSet,
    properCaseTokens: WordSet,
    brandTokens: WordSet,
    brandSuffixes: WordSet,
    honorificBases: Option<WordSet>,
    properCaseMap: string -> Option<string>)

  datatype TitleCaseLexicon = TitleCaseLexicon(smallWords: WordSet, protectedAsIs: WordSet)

  /** Options of the sentence-case converter (the culture is not modelled). */
  datatype SentenceCaseOptions = SentenceCaseOptions(
    preserveAcronymsMidSentence: bool,
    treatUnknownShortAllCapsAsAcronym: bool)

  /** Options of the title-case converter (the culture is not modelled). */
  datatype TitleCaseOptions = TitleCaseOptions(
    capitalizeAfterColon: bool,
    forceCapFirstAndLast: bool,
    capitalizeHyphenatedSegments: bool,
    preserveAcronyms: bool,
    preserveCamelOrMixedCase: bool,
    uppercaseSingleLetterWords: bool)

  const DefaultSentenceCaseOptions := SentenceCaseOptions(true, false)

  const DefaultTitleCaseOptions := TitleCaseOptions(true, true, true, true, true, true)

  /** Every entry of the proper-case map is a re-casing of its key. */
  ghost predicate MapKeepsCase(lex: SentenceCaseLexicon)
  {
    forall t :: lex.properCaseMap(t).Some? ==> CaseVariant(lex.properCaseMap(t).value, t)
  }

  /** The proper-case map looks its keys up ignoring case, as an OrdinalIgnoreCase dictionary does. */
  ghost predicate MapIgnoresCase(lex: SentenceCaseLexicon)
  {
    forall a, b :: CaseVariant(a, b) ==> lex.properCaseMap(a) == lex.properCaseMap(b)
  }

  // ---------------------------------------------------------------- default sentence-case lexicon

  const NonTerminalAbbreviationEntries: set<string> := {
    "mr", "mrs", "ms", "dr", "prof", "sr", "jr", "st",
    "vs", "v", "etc", "e.g", "eg", "i.e", "ie",
    "a.m", "am", "p.m", "pm",
    "u.s", "u.s.a", "us", "usa", "u.k", "uk", "u.n", "un",
    "ai", "a.i."
  }

  // The stopwords, one constant per line of the source list.
  const Stopwords0: set<string> := {"A", "AN", "THE", "AND", "OR", "NOR", "BUT", "SO"}
  const Stopwords1: set<string> := {"TO", "IN", "ON", "AT", "OF", "BY", "AS"}
  const Stopwords2: set<string> := {"IS", "AM", "ARE", "WAS", "WERE", "BE", "BEEN"}
  const Stopwords3: set<string> := {"DO", "DID", "DONE"}
  const Stopwords4: set<string> := {"FOR", "FROM", "WITH", "WITHOUT", "OVER", "UNDER"}
  const Stopwords5: set<string> := {"OUT", "OFF", "UP", "DOWN"}
  const Stopwords6: set<string> := {"NEW", "ALL", "ANY", "NOT", "ONE", "TWO"}
  const Stopwords7: set<string> := {"I", "ME", "MY", "YOU", "YOUR", "WE", "US", "OUR"}
  const Stopwords8: set<string> := {"HE", "HIM", "HIS", "SHE", "HER", "IT", "ITS"}
  const Stopwords9: set<string> := {"THEY", "THEM", "THEIR", "THIS", "THAT", "THESE", "THOSE"}
  const Stopwords10: set<string> := {"IF", "THAN", "THEN", "PER", "ET", "AL"}
  const Stopwords11: set<string> := {"CAN", "MAY", "HAS", "HAD"}

  const UpperShortStopwordEntries: set<string> :=
    Stopwords0 + Stopwords1 + Stopwords2 + Stopwords3 + Stopwords4 + Stopwords5
    + Stopwords6 + Stopwords7 + Stopwords8 + Stopwords9 + Stopwords10 + Stopwords11

  // The whitelisted acronyms, one constant per line of the source list.
  const Acronyms0: set<string> := {"AI", "ML", "API", "SDK", "CLI", "UI", "UX", "ID", "IP", "DNS", "TCP", "UDP", "SSL", "TLS", "SSH"}
  const Acronyms1: set<string> := {"CPU", "GPU", "RAM", "ROM", "SSD", "HDD", "USB", "WPF", "GPT", "USA", "UK", "EU", "UN", "UAE", "SLS"}
  const Acronyms2: set<string> := {"NASA", "HTTP", "HTTPS", "HTML", "JSON", "XML", "SQL", "UUID", "GUID", "JPEG", "PNG", "WASM", "WLAN", "SSID"}

  const UpperAcronymEntries: set<string> := Acronyms0 + Acronyms1 + Acronyms2

  const ProperCaseTokenEntries: set<string> := {"Claude", "Sonnet", "Gemini"}

  const BrandTokenEntries: set<string> := {"Claude", "Gemini", "iPhone", "iPad", "Pixel", "Galaxy", "MacBook", "ThinkPad"}

  const BrandSuffixEntries: set<string> := {"Pro", "Max", "Ultra", "Plus", "Mini"}

  /**
   * The default sentence-case lexicon. Its ProperCaseMap and HonorificBases
   * are not populated by the default class, so they are parameters here.
   */
  function DefaultSentenceCaseLexicon(properCaseMap: string -> Option<string>, honorificBases: Option<WordSet>): (lex: SentenceCaseLexicon)
    ensures lex.nonTerminalAbbreviations.ignoreCase && lex.properCaseTokens.ignoreCase
    ensures lex.brandTokens.ignoreCase && lex.brandSuffixes.ignoreCase
    ensures !lex.upperShortStopwords.ignoreCase && !lex.upperAcronyms.ignoreCase
  {
    SentenceCaseLexicon(
      WordSet(NonTerminalAbbreviationEntries, true),
      WordSet(UpperShortStopwordEntries, false),
      WordSet(UpperAcronymEntries, false),
      WordSet(ProperCaseTokenEntries, true),
      WordSet(BrandTokenEntries, true),
      WordSet(BrandSuffixEntries, true),
      honorificBases,
      properCaseMap)
  }

  // ---------------------------------------------------------------- default title-case lexicon

  // The small words, one constant per line of the source list.
  const SmallWords0: set<string> := {"a", "an", "the"}
  const SmallWords1: set<string> := {"and", "but", "for", "nor", "or", "so", "yet"}
  const SmallWords2: set<string> := {"as", "at", "by", "in", "of", "off", "on", "per", "to", "up", "via"}
  const SmallWords3: set<string> := {"vs"}

  const SmallWordEntries: set<string> := SmallWords0 + SmallWords1 + SmallWords2 + SmallWords3

  const DefaultTitleCaseLexicon := TitleCaseLexicon(WordSet(SmallWordEntries, true), WordSet({}, false))

  // ---------------------------------------------------------------- facts about the default data

  predicate AllUpperLetters(w: string) { forall k :: 0 <= k < |w| ==> IsUpper(w[k]) }

  predicate AllLowerLetters(w: string) { forall k :: 0 <= k < |w| ==> IsLower(w[k]) }

  /** Every whitelisted acronym is at least two upper-case ASCII letters. */
  lemma UpperAcronymsAreUpperLetters()
    ensures forall w :: w in UpperAcronymEntries ==> |w| >= 2 && AllUpperLetters(w)
  {
    AcronymsAreUpperLetters0();
    AcronymsAreUpperLetters1();
    AcronymsAreUpperLetters2();
  }

  lemma AcronymsAreUpperLetters0() ensures forall w :: w in Acronyms0 ==> |w| >= 2 && AllUpperLetters(w) { }
  lemma AcronymsAreUpperLetters1() ensures forall w :: w in Acronyms1 ==> |w| >= 2 && AllUpperLetters(w) { }
  lemma AcronymsAreUpperLetters2() ensures forall w :: w in Acronyms2 ==> |w| >= 2 && AllUpperLetters(w) { }

  /** No whitelisted acronym is also a short stopword. */
  lemma AcronymsAndStopwordsDisjoint()
    ensures UpperAcronymEntries * UpperShortStopwordEntries == {}
  {
    StopwordsAreNotAcronyms0();
    StopwordsAreNotAcronyms1();
    StopwordsAreNotAcronyms2();
    StopwordsAreNotAcronyms3();
    StopwordsAreNotAcronyms4();
    StopwordsAreNotAcronyms5();
    StopwordsAreNotAcronyms6();
    StopwordsAreNotAcronyms7();
    StopwordsAreNotAcronyms8();
    StopwordsAreNotAcronyms9();
    StopwordsAreNotAcronyms10();
    StopwordsAreNotAcronyms11();
    forall w | w in UpperShortStopwordEntries ensures w !in UpperAcronymEntries {
    }
  }

  /** XYZ, an all-caps word of three letters, is not whitelisted. */
  lemma XyzIsNoAcronym()
    ensures "XYZ" !in UpperAcronymEntries
  {
    XyzIsNoAcronym0();
    XyzIsNoAcronym1();
    XyzIsNoAcronym2();
  }

  lemma XyzIsNoAcronym0() ensures "XYZ" !in Acronyms0 { }
  lemma XyzIsNoAcronym1() ensures "XYZ" !in Acronyms1 { }
  lemma XyzIsNoAcronym2() ensures "XYZ" !in Acronyms2 { }

  // One lemma per pair of source lines keeps each comparison small.
  lemma NoStopwordIsAcronym0_0() ensures forall w :: w in Stopwords0 ==> w !in Acronyms0 { }
  lemma NoStopwordIsAcronym0_1() ensures forall w :: w in Stopwords0 ==> w !in Acronyms1 { }
  lemma NoStopwordIsAcronym0_2() ensures forall w :: w in Stopwords0 ==> w !in Acronyms2 { }
  lemma NoStopwordIsAcronym1_0() ensures forall w :: w in Stopwords1 ==> w !in Acronyms0 { }
  lemma NoStopwordIsAcronym1_1() ensures forall w :: w in Stopwords1 ==> w !in Acronyms1 { }
  lemma NoStopwordIsAcronym1_2() ensures forall w :: w in Stopwords1 ==> w !in Acronyms2 { }
  lemma NoStopwordIsAcronym2_0() ensures forall w :: w in Stopwords2 ==> w !in Acronyms0 { }
  lemma NoStopwordIsAcronym2_1() ensures forall w :: w in Stopwords2 ==> w !in Acronyms1 { }
  lemma NoStopwordIsAcronym2_2() ensures forall w :: w in Stopwords2 ==> w !in Acronyms2 { }
  lemma NoStopwordIsAcronym3_0() ensures forall w :: w in Stopwords3 ==> w !in Acronyms0 { }
  lemma NoStopwordIsAcronym3_1() ensures forall w :: w in Stopwords3 ==> w !in Acronyms1 { }
  lemma NoStopwordIsAcronym3_2() ensures forall w :: w in Stopwords3 ==> w !in Acronyms2 { }
  lemma NoStopwordIsAcronym4_0() ensures forall w :: w in Stopwords4 ==> w !in Acronyms0 { }
  lemma NoStopwordIsAcronym4_1() ensures forall w :: w in Stopwords4 ==> w !in Acronyms1 { }
  lemma NoStopwordIsAcronym4_2() ensures forall w :: w in Stopwords4 ==> w !in Acronyms2 { }
  lemma NoStopwordIsAcronym5_0() ensures forall w :: w in Stopwords5 ==> w !in Acronyms0 { }
  lemma NoStopwordIsAcronym5_1() ensures forall w :: w in Stopwords5 ==> w !in Acronyms1 { }
  lemma NoStopwordIsAcronym5_2() ensures forall w :: w in Stopwords5 ==> w !in Acronyms2 { }
  lemma NoStopwordIsAcronym6_0() ensures forall w :: w in Stopwords6 ==> w !in Acronyms0 { }
  lemma NoStopwordIsAcronym6_1() ensures forall w :: w in Stopwords6 ==> w !in Acronyms1 { }
  lemma NoStopwordIsAcronym6_2() ensures forall w :: w in Stopwords6 ==> w !in Acronyms2 { }
  lemma NoStopwordIsAcronym7_0() ensures forall w :: w in Stopwords7 ==> w !in Acronyms0 { }
  lemma NoStopwordIsAcronym7_1() ensures forall w :: w in Stopwords7 ==> w !in Acronyms1 { }
  lemma NoStopwordIsAcronym7_2() ensures forall w :: w in Stopwords7 ==> w !in Acronyms2 { }
  lemma NoStopwordIsAcronym8_0() ensures forall w :: w in Stopwords8 ==> w !in Acronyms0 { }
  lemma NoStopwordIsAcronym8_1() ensures forall w :: w in Stopwords8 ==> w !in Acronyms1 { }
  lemma NoStopwordIsAcronym8_2() ensures forall w :: w in Stopwords8 ==> w !in Acronyms2 { }
  lemma NoStopwordIsAcronym9_0() ensures forall w :: w in Stopwords9 ==> w !in Acronyms0 { }
  lemma NoStopwordIsAcronym9_1() ensures forall w :: w in Stopwords9 ==> w !in Acronyms1 { }
  lemma NoStopwordIsAcronym9_2() ensures forall w :: w in Stopwords9 ==> w !in Acronyms2 { }
  lemma NoStopwordIsAcronym10_0() ensures forall w :: w in Stopwords10 ==> w !in Acronyms0 { }
  lemma NoStopwordIsAcronym10_1() ensures forall w :: w in Stopwords10 ==> w !in Acronyms1 { }
  lemma NoStopwordIsAcronym10_2() ensures forall w :: w in Stopwords10 ==> w !in Acronyms2 { }
  lemma NoStopwordIsAcronym11_0() ensures forall w :: w in Stopwords11 ==> w !in Acronyms0 { }
  lemma NoStopwordIsAcronym11_1() ensures forall w :: w in Stopwords11 ==> w !in Acronyms1 { }
  lemma NoStopwordIsAcronym11_2() ensures forall w :: w in Stopwords11 ==> w !in Acronyms2 { }

  lemma StopwordsAreNotAcronyms0()
    ensures forall w :: w in Stopwords0 ==> w !in UpperAcronymEntries
  {
    NoStopwordIsAcronym0_0(); NoStopwordIsAcronym0_1(); NoStopwordIsAcronym0_2();
  }
  lemma StopwordsAreNotAcronyms1()
    ensures forall w :: w in Stopwords1 ==> w !in UpperAcronymEntries
  {
    NoStopwordIsAcronym1_0(); NoStopwordIsAcronym1_1(); NoStopwordIsAcronym1_2();
  }
  lemma StopwordsAreNotAcronyms2()
    ensures forall w :: w in Stopwords2 ==> w !in UpperAcronymEntries
  {
    NoStopwordIsAcronym2_0(); NoStopwordIsAcronym2_1(); NoStopwordIsAcronym2_2();
  }
  lemma StopwordsAreNotAcronyms3()
    ensures forall w :: w in Stopwords3 ==> w !in UpperAcronymEntries
  {
    NoStopwordIsAcronym3_0(); NoStopwordIsAcronym3_1(); NoStopwordIsAcronym3_2();
  }
  lemma StopwordsAreNotAcronyms4()
    ensures forall w :: w in Stopwords4 ==> w !in UpperAcronymEntries
  {
    NoStopwordIsAcronym4_0(); NoStopwordIsAcronym4_1(); NoStopwordIsAcronym4_2();
  }
  lemma StopwordsAreNotAcronyms5()
    ensures forall w :: w in Stopwords5 ==> w !in UpperAcronymEntries
  {
    NoStopwordIsAcronym5_0(); NoStopwordIsAcronym5_1(); NoStopwordIsAcronym5_2();
  }
  lemma StopwordsAreNotAcronyms6()
    ensures forall w :: w in Stopwords6 ==> w !in UpperAcronymEntries
  {
    NoStopwordIsAcronym6_0(); NoStopwordIsAcronym6_1(); NoStopwordIsAcronym6_2();
  }
  lemma StopwordsAreNotAcronyms7()
    ensures forall w :: w in Stopwords7 ==> w !in UpperAcronymEntries
  {
    NoStopwordIsAcronym7_0(); NoStopwordIsAcronym7_1(); NoStopwordIsAcronym7_2();
  }
  lemma StopwordsAreNotAcronyms8()
    ensures forall w :: w in Stopwords8 ==> w !in UpperAcronymEntries
  {
    NoStopwordIsAcronym8_0(); NoStopwordIsAcronym8_1(); NoStopwordIsAcronym8_2();
  }
  lemma StopwordsAreNotAcronyms9()
    ensures forall w :: w in Stopwords9 ==> w !in UpperAcronymEntries
  {
    NoStopwordIsAcronym9_0(); NoStopwordIsAcronym9_1(); NoStopwordIsAcronym9_2();
  }
  lemma StopwordsAreNotAcronyms10()
    ensures forall w :: w in Stopwords10 ==> w !in UpperAcronymEntries
  {
    NoStopwordIsAcronym10_0(); NoStopwordIsAcronym10_1(); NoStopwordIsAcronym10_2();
  }
  lemma StopwordsAreNotAcronyms11()
    ensures forall w :: w in Stopwords11 ==> w !in UpperAcronymEntries
  {
    NoStopwordIsAcronym11_0(); NoStopwordIsAcronym11_1(); NoStopwordIsAcronym11_2();
  }

  /** Every small word is one to three lower-case letters. */
  lemma SmallWordsAreShortLowerWords()
    ensures forall w :: w in SmallWordEntries ==> 1 <= |w| <= 3 && AllLowerLetters(w)
  {
    SmallWordsAreShortLowerWords0();
    SmallWordsAreShortLowerWords1();
    SmallWordsAreShortLowerWords2();
    SmallWordsAreShortLowerWords3();
  }

  lemma SmallWordsAreShortLowerWords0() ensures forall w :: w in SmallWords0 ==> 1 <= |w| <= 3 && AllLowerLetters(w) { }
  lemma SmallWordsAreShortLowerWords1() ensures forall w :: w in SmallWords1 ==> 1 <= |w| <= 3 && AllLowerLetters(w) { }
  lemma SmallWordsAreShortLowerWords2() ensures forall w :: w in SmallWords2 ==> 1 <= |w| <= 3 && AllLowerLetters(w) { }
  lemma SmallWordsAreShortLowerWords3() ensures forall w :: w in SmallWords3 ==> 1 <= |w| <= 3 && AllLowerLetters(w) { }

  /** The small-word set ignores case, so "THE" counts as small, and "vs" is small. */
  lemma SmallWordsIgnoreCase()
    ensures DefaultTitleCaseLexicon.smallWords.Contains("THE")
    ensures DefaultTitleCaseLexicon.smallWords.Contains("vs")
  {
    assert Lower("the") == Lower("THE");
    assert Lower("vs") == Lower("vs");
  }

  /** A lower-case word is small exactly when it is listed: the folding comparer adds nothing for it. */
  lemma SmallWordLookup(s: string)
    requires AllLowerLetters(s)
    ensures DefaultTitleCaseLexicon.smallWords.Contains(s) <==> s in SmallWordEntries
  {
    SmallWordsAreShortLowerWords();
    LowerOfLowerWord(s);
    if DefaultTitleCaseLexicon.smallWords.Contains(s) {
      var e :| e in SmallWordEntries && Lower(e) == Lower(s);
      LowerOfLowerWord(e);
    } else {
      assert Lower(s) == Lower(s);
    }
  }

  lemma LowerOfLowerWord(s: string)
    requires AllLowerLetters(s)
    ensures Lower(s) == s
  {
  }

  /**
   * The comment above the small words says "is", "are", "be", "not" and
   * "yet" are always capitalised: the first four are indeed not small, but
   * "yet" is listed.
   */
  lemma CommentedVerbs()
    ensures "yet" in SmallWordEntries
    ensures "is" !in SmallWordEntries && "are" !in SmallWordEntries
    ensures "be" !in SmallWordEntries && "not" !in SmallWordEntries
  {
    NotSmall0();
    NotSmall1();
    NotSmall2();
    NotSmall3();
  }

  lemma NotSmall0() ensures "is" !in SmallWords0 && "are" !in SmallWords0 && "be" !in SmallWords0 && "not" !in SmallWords0 { }
  lemma NotSmall1() ensures "is" !in SmallWords1 && "are" !in SmallWords1 && "be" !in SmallWords1 && "not" !in SmallWords1 && "yet" in SmallWords1 { }
  lemma NotSmall2() ensures "is" !in SmallWords2 && "are" !in SmallWords2 && "be" !in SmallWords2 && "not" !in SmallWords2 { }
  lemma NotSmall3() ensures "is" !in SmallWords3 && "are" !in SmallWords3 && "be" !in SmallWords3 && "not" !in SmallWords3 { }

  /** No small word, upper-cased, is a whitelisted acronym, so acronym restoration never overrides a small word. */
  lemma SmallWordsAreNotAcronyms()
    ensures forall w :: w in SmallWordEntries ==> Upper(w) !in UpperAcronymEntries
  {
    UpperSmallWords0(); UpperSmallWords1(); UpperSmallWords2(); UpperSmallWords3();
    UpperSmallAreNotAcronyms0(); UpperSmallAreNotAcronyms1(); UpperSmallAreNotAcronyms2();
    forall w | w in SmallWordEntries ensures Upper(w) !in UpperAcronymEntries {
      assert Upper(w) in UpperSmallWords;
    }
  }

  const UpperSmallWords: set<string> := {
    "A", "AN", "THE", "AND", "BUT", "FOR", "NOR", "OR", "SO", "YET",
    "AS", "AT", "BY", "IN", "OF", "OFF", "ON", "PER", "TO", "UP", "VIA", "VS"
  }

  lemma UpperSmallWords0() ensures forall w :: w in SmallWords0 ==> Upper(w) in UpperSmallWords
  {
    assert Upper("a") == "A" && Upper("an") == "AN" && Upper("the") == "THE";
  }
  lemma UpperSmallWords1() ensures forall w :: w in SmallWords1 ==> Upper(w) in UpperSmallWords
  {
    assert Upper("and") == "AND" && Upper("but") == "BUT" && Upper("for") == "FOR" && Upper("nor") == "NOR";
    assert Upper("or") == "OR" && Upper("so") == "SO" && Upper("yet") == "YET";
  }
  lemma UpperSmallWords2() ensures forall w :: w in SmallWords2 ==> Upper(w) in UpperSmallWords
  {
    assert Upper("as") == "AS" && Upper("at") == "AT" && Upper("by") == "BY" && Upper("in") == "IN";
    assert Upper("of") == "OF" && Upper("off") == "OFF" && Upper("on") == "ON" && Upper("per") == "PER";
    assert Upper("to") == "TO" && Upper("up") == "UP" && Upper("via") == "VIA";
  }
  lemma UpperSmallWords3() ensures forall w :: w in SmallWords3 ==> Upper(w) in UpperSmallWords
  {
    assert Upper("vs") == "VS";
  }
  lemma UpperSmallAreNotAcronyms0() ensures forall w :: w in UpperSmallWords ==> w !in Acronyms0 { }
  lemma UpperSmallAreNotAcronyms1() ensures forall w :: w in UpperSmallWords ==> w !in Acronyms1 { }
  lemma UpperSmallAreNotAcronyms2() ensures forall w :: w in UpperSmallWords ==> w !in Acronyms2 { }

  /** The protected set is empty, so the protected-token rule never fires with the default lexicon. */
  lemma ProtectedAsIsNeverMatches(s: string)
    ensures !DefaultTitleCaseLexicon.protectedAsIs.Contains(s)
  {
  }
}
