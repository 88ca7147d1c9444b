/**
 * Title case is a fixed point: converting the converter's own output again
 * changes nothing, provided the proper-case map only re-cases its keys and
 * looks them up ignoring case, and the small-word set ignores case (as the
 * default one does).
 *
 * The argument is rule by rule. A second pass sees the same word
 * boundaries, the same first and last word and the same colons, since only
 * the case of letters has changed; on each word the rule that decided it
 * the first time decides it again (or an earlier rule returns the word as
 * it is), and every rule's result is a fixed point of that rule.
 */
module TitleCaseStability {
  import opened Chars
  import opened Text
  import opened Wrappers
  import opened Lexicon
  import opened TokenShape
  import opened TitleCase
  import opened TitleCaseFacts

  /** What the second pass needs of the converter's lexicons. */
  ghost predicate StableLexicons(c: TitleCaser)
  {
    MapKeepsCase(c.commonLex) && MapIgnoresCase(c.commonLex) && c.titleLex.smallWords.ignoreCase
  }

  // ---------------------------------------------------------------- one segment

  /** The segment cascade applied to its own result gives that result back. */
  lemma SegmentCaseStable(c: TitleCaser, seg: string, isFirstWord: bool, isLastWord: bool, force: bool)
    requires StableLexicons(c)
    ensures var o := SegmentCase(c, seg, isFirstWord, isLastWord, force);
      SegmentCase(c, o, isFirstWord, isLastWord, force) == o
  {
    var o := SegmentCase(c, seg, isFirstWord, isLastWord, force);
    SegmentCaseKeepsCase(c, seg, isFirstWord, isLastWord, force);
    CaseVariantFacts(o, seg);
    assert c.commonLex.properCaseMap(o) == c.commonLex.properCaseMap(seg);
    match c.commonLex.properCaseMap(seg)
    case Some(proper) =>
    case None =>
      ContainsIgnoresCase(c.titleLex.smallWords, o, seg);
      LowerUpperAreCaseVariants(seg);
      CaseVariantFacts(Upper(seg), seg);
      CaseVariantFacts(Lower(seg), seg);
      CapApostrophesShape(seg);
      CapApostrophesIgnoresCase(o, seg);
      if c.opt.preserveAcronyms && c.commonLex.upperAcronyms.Contains(Upper(seg)) {
        assert o == Upper(seg);
      } else if c.opt.uppercaseSingleLetterWords && |seg| == 1 && IsLetter(seg[0]) {
        assert o == Upper(seg);
      } else if c.titleLex.protectedAsIs.Contains(seg)
             || (c.opt.preserveAcronyms && TitleAllCapsAcronym(c.commonLex, seg))
             || (c.opt.preserveCamelOrMixedCase && CamelOrMixed(seg)) {
        assert o == seg;
      } else if c.titleLex.smallWords.Contains(seg) && !MustCap(c, isFirstWord, isLastWord, force) {
        assert o == Lower(seg);
      } else {
        assert o == CapApostrophes(seg);
      }
  }

  // ---------------------------------------------------------------- hyphenated words

  /** The hyphen search passes over a stretch without hyphens. */
  lemma {:induction false} DashFromSkips(t: string, i: int, j: int)
    requires 0 <= i <= j <= |t| && forall k :: i <= k < j ==> t[k] != '-'
    ensures DashFrom(t, i) == DashFrom(t, j)
    decreases j - i
  {
    if i < j {
      DashFromSkips(t, i + 1, j);
    }
  }

  /** A dash-free first part of the text from i ends where the search from i stops. */
  lemma DashAfterPart(t: string, i: int, p: string)
    requires 0 <= i <= |t| && p <= t[i..] && '-' !in p
    requires i + |p| == |t| || t[i + |p|] == '-'
    ensures DashFrom(t, i) == i + |p| && t[i..i + |p|] == p
  {
    forall k | i <= k < i + |p|
      ensures t[k] != '-'
    {
      assert t[k] == t[i..][k - i] == p[k - i];
    }
    DashFromSkips(t, i, i + |p|);
  }

  /** A text that continues with a part, a dash and the rest. */
  lemma JoinHead(t: string, i: int, p: string, rest: string)
    requires 0 <= i <= |t| && t[i..] == p + ("-" + rest)
    ensures p <= t[i..] && t[i + |p|] == '-' && t[i + |p| + 1..] == rest
  {
    assert t[i + |p|] == t[i..][|p|];
    assert t[i + |p| + 1..] == t[i..][|p| + 1..];
  }

  /** Splitting, from i on, a text that continues with dash-free parts joined by dashes gives those parts. */
  lemma {:induction false} SplitFromJoin(t: string, i: int, parts: seq<string>)
    requires 0 <= i <= |t| && |parts| >= 1 && t[i..] == JoinDash(parts)
    requires forall j :: 0 <= j < |parts| ==> '-' !in parts[j]
    ensures SplitFrom(t, i) == parts
    decreases |parts|
  {
    var p := parts[0];
    assert '-' !in p;
    if |parts| == 1 {
      DashAfterPart(t, i, p);
    } else {
      var rest := JoinDash(parts[1..]);
      JoinHead(t, i, p, rest);
      DashAfterPart(t, i, p);
      var more := parts[1..];
      assert forall j :: 0 <= j < |more| ==> more[j] == parts[j + 1];
      SplitFromJoin(t, i + |p| + 1, more);
      assert parts == [p] + more;
    }
  }

  /** Splitting parts without hyphens after joining them with hyphens gives the parts back. */
  lemma SplitJoinDash(parts: seq<string>)
    requires |parts| >= 1 && forall j :: 0 <= j < |parts| ==> '-' !in parts[j]
    ensures SplitDash(JoinDash(parts)) == parts
  {
    var t := JoinDash(parts);
    assert t[0..] == t;
    SplitFromJoin(t, 0, parts);
  }

  /** A hyphen is not a letter, so a case variant has its hyphens where the original has them. */
  lemma DashesKept(a: string, b: string)
    requires CaseVariant(a, b)
    ensures ('-' in a) == ('-' in b)
  {
    CaseVariantFacts(a, b);
    if '-' in b {
      var k :| 0 <= k < |b| && b[k] == '-';
      assert a[k] == '-';
    }
    if '-' in a {
      var k :| 0 <= k < |a| && a[k] == '-';
      SameFold(a[k], b[k]);
    }
  }

  /** The word rule, hyphenated or not, applied to its own result gives that result back. */
  lemma WordCaseStable(c: TitleCaser, token: string, isFirstWord: bool, isLastWord: bool, colon: bool)
    requires StableLexicons(c)
    ensures var o := WordCase(c, token, isFirstWord, isLastWord, colon);
      WordCase(c, o, isFirstWord, isLastWord, colon) == o
  {
    var o := WordCase(c, token, isFirstWord, isLastWord, colon);
    WordCaseKeepsCase(c, token, isFirstWord, isLastWord, colon);
    DashesKept(o, token);
    if '-' in token && c.opt.capitalizeHyphenatedSegments {
      var parts := SplitDash(token);
      var outs := SegmentOutputs(c, token, isFirstWord, isLastWord, colon);
      SplitPartsHaveNoDash(token, 0);
      forall j | 0 <= j < |outs|
        ensures '-' !in outs[j]
        ensures SegmentOut(c, outs[j], j, |outs|, isFirstWord, isLastWord, colon) == outs[j]
      {
        var f := MustCap(c, isFirstWord, isLastWord, colon) || j == 0 || j == |parts| - 1;
        if |parts[j]| > 0 {
          SegmentCaseKeepsCase(c, parts[j], isFirstWord, isLastWord, f);
          DashesKept(outs[j], parts[j]);
          SegmentCaseStable(c, parts[j], isFirstWord, isLastWord, f);
        }
      }
      SplitJoinDash(outs);
      assert SegmentOutputs(c, o, isFirstWord, isLastWord, colon) == outs;
    } else {
      SegmentCaseStable(c, token, isFirstWord, isLastWord, colon);
    }
  }

  // ---------------------------------------------------------------- word boundaries ignore case

  lemma {:induction false} WordEndIgnoresCase(a: string, b: string, i: int)
    requires CaseVariant(a, b) && 0 <= i <= |a|
    ensures WordEnd(a, i) == WordEnd(b, i)
    decreases |a| - i
  {
    if i < |a| {
      SameFold(a[i], b[i]);
      if IsWordChar(a[i]) {
        WordEndIgnoresCase(a, b, i + 1);
      }
    }
  }

  lemma {:induction false} FirstWordStartIgnoresCase(a: string, b: string)
    requires CaseVariant(a, b)
    ensures FirstWordStart(a) == FirstWordStart(b)
    decreases |a|
  {
    if |a| > 0 {
      SameFold(a[0], b[0]);
      FirstWordStartIgnoresCase(a[1..], b[1..]);
    }
  }

  lemma {:induction false} LastAlnumIgnoresCase(a: string, b: string)
    requires CaseVariant(a, b)
    ensures LastAlnum(a) == LastAlnum(b)
    decreases |a|
  {
    if |a| > 0 {
      SameFold(a[|a| - 1], b[|a| - 1]);
      LastAlnumIgnoresCase(a[..|a| - 1], b[..|b| - 1]);
    }
  }

  lemma {:induction false} RunStartIgnoresCase(a: string, b: string, i: int)
    requires CaseVariant(a, b) && 0 <= i < |a|
    ensures RunStart(a, i) == RunStart(b, i)
    decreases i
  {
    if i > 0 {
      SameFold(a[i - 1], b[i - 1]);
      RunStartIgnoresCase(a, b, i - 1);
    }
  }

  lemma LastWordStartIgnoresCase(a: string, b: string)
    requires CaseVariant(a, b)
    ensures LastWordStart(a) == LastWordStart(b)
  {
    LastAlnumIgnoresCase(a, b);
    if LastAlnum(a) >= 0 {
      RunStartIgnoresCase(a, b, LastAlnum(a));
    }
  }

  // ---------------------------------------------------------------- the whole scan

  /**
   * If out, a re-casing of text, is from i on what the scan of text from i
   * produces, then the scan of out from i (with the same flags) gives that
   * part of out back.
   */
  lemma {:induction false} TitleFromStable(c: TitleCaser, text: string, out: string, i: int, force: bool, firstStart: int, lastStart: int)
    requires StableLexicons(c) && 0 <= i <= |text| && CaseVariant(out, text)
    requires out[i..] == TitleFrom(c, text, i, force, firstStart, lastStart)
    ensures TitleFrom(c, out, i, force, firstStart, lastStart) == out[i..]
    decreases |text| - i
  {
    CaseVariantFacts(out, text);
    if i < |text| {
      if IsLetterOrDigit(text[i]) {
        var e := WordEnd(text, i);
        WordPieces(c, text, out, i, force, firstStart, lastStart);
        TitleFromStable(c, text, out, e, false, firstStart, lastStart);
        WordStable(c, text, out, i, force, firstStart, lastStart);
      } else {
        var f1 := force || (c.opt.capitalizeAfterColon && text[i] == ':');
        NextSeparator(c, text, i, force, firstStart, lastStart);
        assert out[i] == text[i];
        SliceCons(out, i);
        TitleFromStable(c, text, out, i + 1, f1, firstStart, lastStart);
        NextSeparator(c, out, i, force, firstStart, lastStart);
      }
    }
  }

  /** Where a word starts, out holds its cased form and then the scan of the rest. */
  lemma WordPieces(c: TitleCaser, text: string, out: string, i: int, force: bool, firstStart: int, lastStart: int)
    requires StableLexicons(c) && 0 <= i < |text| && IsLetterOrDigit(text[i]) && CaseVariant(out, text)
    requires out[i..] == TitleFrom(c, text, i, force, firstStart, lastStart)
    ensures var e := WordEnd(text, i);
      out[i..e] == WordCase(c, text[i..e], i == firstStart, i == lastStart, force)
      && out[e..] == TitleFrom(c, text, e, false, firstStart, lastStart)
  {
    var e := WordEnd(text, i);
    var w := WordCase(c, text[i..e], i == firstStart, i == lastStart, force);
    WordCaseKeepsCase(c, text[i..e], i == firstStart, i == lastStart, force);
    NextWord(c, text, i, force, firstStart, lastStart);
    assert out[i..] == w + TitleFrom(c, text, e, false, firstStart, lastStart);
    assert out[i..e] == out[i..][..e - i] && out[e..] == out[i..][e - i..];
  }

  /** The second pass over such a word reproduces it. */
  lemma WordStable(c: TitleCaser, text: string, out: string, i: int, force: bool, firstStart: int, lastStart: int)
    requires StableLexicons(c) && 0 <= i < |text| && IsLetterOrDigit(text[i]) && CaseVariant(out, text)
    requires var e := WordEnd(text, i);
      out[i..e] == WordCase(c, text[i..e], i == firstStart, i == lastStart, force)
      && TitleFrom(c, out, e, false, firstStart, lastStart) == out[e..]
    ensures TitleFrom(c, out, i, force, firstStart, lastStart) == out[i..]
  {
    var e := WordEnd(text, i);
    CaseVariantFacts(out, text);
    WordEndIgnoresCase(out, text, i);
    WordCaseStable(c, text[i..e], i == firstStart, i == lastStart, force);
    NextWord(c, out, i, force, firstStart, lastStart);
    SliceSplit(out, i, e);
  }

  /**
   * Title case is a fixed point of itself: converting its output again
   * returns that output unchanged.
   */
  lemma TitleCaseStable(c: TitleCaser, input: string)
    requires StableLexicons(c)
    ensures ToTitleCase(c, ToTitleCase(c, input)) == ToTitleCase(c, input)
  {
    if |input| > 0 {
      var text := NormalizeNewlines(input);
      var out := ToTitleCase(c, input);
      TitleCaseKeepsText(c, input);
      NormalizedHasNoCr(input);
      CaseVariantFacts(out, text);
      if |out| > 0 {
        assert '\r' !in out by {
          forall k | 0 <= k < |out| ensures out[k] != '\r' {
            if !IsLetter(text[k]) {
              assert out[k] == text[k];
            }
          }
        }
        NormalizeWithoutCr(out);
        FirstWordStartIgnoresCase(out, text);
        LastWordStartIgnoresCase(out, text);
        assert out[0..] == out;
        TitleFromStable(c, text, out, 0, false, FirstWordStart(text), LastWordStart(text));
      }
    }
  }

  /** The default lexicons meet the requirement whenever the proper-case map does. */
  lemma DefaultTitleCaseStable(m: string -> Option<string>, h: Option<WordSet>, input: string)
    requires MapKeepsCase(DefaultSentenceCaseLexicon(m, h)) && MapIgnoresCase(DefaultSentenceCaseLexicon(m, h))
    ensures var c := DefaultCaser(m, h); ToTitleCase(c, ToTitleCase(c, input)) == ToTitleCase(c, input)
  {
    TitleCaseStable(DefaultCaser(m, h), input);
  }
}
