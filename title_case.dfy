/**
 * The title-case converter: a left-to-right scan that copies separators and
 * replaces each word (a run of letters, digits, apostrophes and hyphens
 * that starts at a letter or digit) by its title-cased form. A hyphenated
 * word is cased segment by segment; the first and last word of the text and
 * the word after a colon are forced to a capital.
 *
 * The converter's fields never change after construction, so it is the
 * value TitleCaser. The scan and its helpers are methods, each proved equal
 * to a pure function; the properties are lemmas about those functions.
 */
module TitleCase {
  import opened Chars
  import opened Text
  import opened Wrappers
  import opened Lexicon
  import opened TokenShape

  /** The title lexicon, the shared sentence-case lexicon (acronyms, proper-case map) and the options. */
  datatype TitleCaser = TitleCaser(titleLex: TitleCaseLexicon, commonLex: SentenceCaseLexicon, opt: TitleCaseOptions)

  // ---------------------------------------------------------------- word boundaries

  predicate IsWordChar(c: char) { IsLetterOrDigit(c) || IsApostrophe(c) || c == '-' }

  /** The end of the maximal run of word characters that starts at i. */
  function WordEnd(text: string, i: int): (r: int)
    requires 0 <= i <= |text|
    ensures i <= r <= |text|
    ensures forall k :: i <= k < r ==> IsWordChar(text[k])
    ensures r == |text| || !IsWordChar(text[r])
    decreases |text| - i
  {
    if i < |text| && IsWordChar(text[i]) then WordEnd(text, i + 1) else i
  }

  method ScanWordEnd(text: string, start: int) returns (i: int)
    requires 0 <= start <= |text|
    ensures i == WordEnd(text, start)
  {
    i := start;
    while i < |text| && IsWordChar(text[i])
      invariant start <= i <= |text|
      invariant WordEnd(text, i) == WordEnd(text, start)
    {
      i := i + 1;
    }
  }

  /** The first letter or digit of the text, or -1 when there is none. */
  function FirstWordStart(s: string): (r: int)
    ensures -1 <= r < |s|
    ensures r >= 0 ==> IsLetterOrDigit(s[r])
    ensures forall k :: 0 <= k < |s| && (r == -1 || k < r) ==> !IsLetterOrDigit(s[k])
  {
    if |s| == 0 then -1
    else if IsLetterOrDigit(s[0]) then 0
    else var r := FirstWordStart(s[1..]); if r == -1 then -1 else r + 1
  }

  method FindFirstWordStart(s: string) returns (r: int)
    ensures r == FirstWordStart(s)
  {
    var i := 0;
    while i < |s|
      invariant 0 <= i <= |s|
      invariant forall k :: 0 <= k < i ==> !IsLetterOrDigit(s[k])
    {
      if IsLetterOrDigit(s[i]) {
        return i;
      }
      i := i + 1;
    }
    return -1;
  }

  /** The last letter or digit of the text, or -1 when there is none. */
  function LastAlnum(s: string): (r: int)
    ensures -1 <= r < |s|
    ensures r >= 0 ==> IsLetterOrDigit(s[r])
    ensures forall k :: r < k < |s| ==> !IsLetterOrDigit(s[k])
    decreases |s|
  {
    if |s| == 0 then -1
    else if IsLetterOrDigit(s[|s| - 1]) then |s| - 1
    else LastAlnum(s[..|s| - 1])
  }

  /** Walking left from i over word characters: the start of the run. */
  function RunStart(s: string, i: int): (r: int)
    requires 0 <= i < |s|
    ensures 0 <= r <= i
    ensures forall k :: r <= k < i ==> IsWordChar(s[k])
    ensures r == 0 || !IsWordChar(s[r - 1])
    decreases i
  {
    if i > 0 && IsWordChar(s[i - 1]) then RunStart(s, i - 1) else i
  }

  /** The start of the run of word characters around the last letter or digit, or -1. */
  function LastWordStart(s: string): int
  {
    var i := LastAlnum(s);
    if i == -1 then -1 else RunStart(s, i)
  }

  method FindLastWordStart(s: string) returns (r: int)
    ensures r == LastWordStart(s)
  {
    var i := |s| - 1;
    while i >= 0
      invariant -1 <= i < |s|
      invariant LastAlnum(s) == LastAlnum(s[..i + 1])
    {
      if IsLetterOrDigit(s[i]) {
        LastAlnumOfPrefix(s, i);
        var j := i;
        while j > 0 && (IsLetterOrDigit(s[j - 1]) || s[j - 1] == '\'' || s[j - 1] == '’' || s[j - 1] == '-')
          invariant 0 <= j <= i
          invariant RunStart(s, j) == RunStart(s, i)
        {
          j := j - 1;
        }
        return j;
      }
      assert s[..i + 1][..i] == s[..i];
      i := i - 1;
    }
    return -1;
  }

  lemma LastAlnumOfPrefix(s: string, i: int)
    requires 0 <= i < |s| && IsLetterOrDigit(s[i]) && LastAlnum(s) == LastAlnum(s[..i + 1])
    ensures LastAlnum(s) == i
  {
    assert s[..i + 1][i] == s[i];
  }

  // ---------------------------------------------------------------- token shape tests

  /** Letters all upper case; digits, hyphens and apostrophes allowed; at least two letters; whitelisted. */
  predicate TitleAllCapsAcronym(lex: SentenceCaseLexicon, t: string)
  {
    (forall k :: 0 <= k < |t| ==> IsUpper(t[k]) || IsDigit(t[k]) || t[k] == '-' || IsApostrophe(t[k]))
    && |Letters(t)| >= 2
    && lex.upperAcronyms.Contains(t)
  }

  method IsAllCapsAcronym(lex: SentenceCaseLexicon, token: string) returns (b: bool)
    ensures b == TitleAllCapsAcronym(lex, token)
  {
    var letters := 0;
    var i := 0;
    while i < |token|
      invariant 0 <= i <= |token|
      invariant letters == |Letters(token[..i])|
      invariant forall k :: 0 <= k < i ==> IsUpper(token[k]) || IsDigit(token[k]) || token[k] == '-' || IsApostrophe(token[k])
    {
      var ch := token[i];
      LettersOfLonger(token, i);
      if IsLetter(ch) {
        letters := letters + 1;
        if !IsUpper(ch) { return false; }
      } else if IsDigit(ch) {
      } else if ch == '-' || ch == '\'' || ch == '’' {
      } else {
        return false;
      }
      i := i + 1;
    }
    assert token[..i] == token;
    if letters < 2 { return false; }
    b := lex.upperAcronyms.Contains(token);
  }

  /** The whitelist lookup of the segment with its letters upper-cased. */
  method TryMapAcronym(lex: SentenceCaseLexicon, seg: string) returns (found: bool, mapped: Option<string>)
    ensures found == lex.upperAcronyms.Contains(Upper(seg))
    ensures mapped == if found then Some(Upper(seg)) else None
  {
    var sb := "";
    var i := 0;
    while i < |seg|
      invariant 0 <= i <= |seg|
      invariant sb == Upper(seg[..i])
    {
      var ch := seg[i];
      assert seg[..i + 1] == seg[..i] + [ch];
      UpperConcat(seg[..i], [ch]);
      if IsLetter(ch) {
        sb := sb + [ToUpper(ch)];
      } else if IsDigit(ch) {
        sb := sb + [ch];
      } else {
        sb := sb + [ch];
      }
      i := i + 1;
    }
    assert seg[..i] == seg;
    if lex.upperAcronyms.Contains(sb) {
      return true, Some(sb);
    }
    return false, None;
  }

  // ---------------------------------------------------------------- one segment

  /** A capital is forced by the colon rule or by first/last-word position when that option is on. */
  predicate MustCap(c: TitleCaser, isFirstWord: bool, isLastWord: bool, force: bool)
  {
    force || (c.opt.forceCapFirstAndLast && (isFirstWord || isLastWord))
  }

  /**
   * The rule cascade of one segment: proper-case map, acronym restoration,
   * single letters, protected tokens, all-caps acronyms, camel case, small
   * words, and otherwise a capital after each apostrophe.
   */
  function SegmentCase(c: TitleCaser, seg: string, isFirstWord: bool, isLastWord: bool, force: bool): string
  {
    match c.commonLex.properCaseMap(seg)
    case Some(proper) => proper
    case None =>
      if c.opt.preserveAcronyms && c.commonLex.upperAcronyms.Contains(Upper(seg)) then Upper(seg)
      else if c.opt.uppercaseSingleLetterWords && |seg| == 1 && IsLetter(seg[0]) then Upper(seg)
      else if c.titleLex.protectedAsIs.Contains(seg) then seg
      else if c.opt.preserveAcronyms && TitleAllCapsAcronym(c.commonLex, seg) then seg
      else if c.opt.preserveCamelOrMixedCase && CamelOrMixed(seg) then seg
      else if c.titleLex.smallWords.Contains(seg) && !MustCap(c, isFirstWord, isLastWord, force) then Lower(seg)
      else CapApostrophes(seg)
  }

  method ProcessSingleSegment(c: TitleCaser, seg: string, isFirstWord: bool, isLastWord: bool, force: bool) returns (r: string)
    ensures r == SegmentCase(c, seg, isFirstWord, isLastWord, force)
  {
    match c.commonLex.properCaseMap(seg) {
      case Some(proper) => return proper;
      case None =>
    }
    if c.opt.preserveAcronyms {
      var found, mapped := TryMapAcronym(c.commonLex, seg);
      if found { return mapped.value; }
    }
    if c.opt.uppercaseSingleLetterWords && |seg| == 1 && IsLetter(seg[0]) {
      return Upper(seg);
    }
    if c.titleLex.protectedAsIs.Contains(seg) { return seg; }
    if c.opt.preserveAcronyms {
      var caps := IsAllCapsAcronym(c.commonLex, seg);
      if caps { return seg; }
    }
    if c.opt.preserveCamelOrMixedCase {
      var camel := IsCamelOrMixedCase(seg);
      if camel { return seg; }
    }
    var isSmall := c.titleLex.smallWords.Contains(seg);
    var mustCap := force || (c.opt.forceCapFirstAndLast && (isFirstWord || isLastWord));
    if isSmall && !mustCap { return Lower(seg); }
    r := CapTokenWithApostrophes(seg);
  }

  // ---------------------------------------------------------------- hyphenated words

  /** The first hyphen at or after i, or the end. */
  function DashFrom(t: string, i: int): (r: int)
    requires 0 <= i <= |t|
    ensures i <= r <= |t|
    ensures forall k :: i <= k < r ==> t[k] != '-'
    ensures r == |t| || t[r] == '-'
    decreases |t| - i
  {
    if i < |t| && t[i] != '-' then DashFrom(t, i + 1) else i
  }

  /** string.Split('-') of the text from i on: every segment, empty ones included. */
  function SplitFrom(t: string, i: int): (r: seq<string>)
    requires 0 <= i <= |t|
    ensures |r| >= 1
    decreases |t| - i
  {
    var e := DashFrom(t, i);
    if e == |t| then [t[i..]] else [t[i..e]] + SplitFrom(t, e + 1)
  }

  function SplitDash(t: string): seq<string> { SplitFrom(t, 0) }

  /** string.Join('-', parts). */
  function JoinDash(parts: seq<string>): string
    requires |parts| >= 1
    decreases |parts|
  {
    if |parts| == 1 then parts[0] else parts[0] + "-" + JoinDash(parts[1..])
  }

  function CountDashes(t: string): nat
  {
    if |t| == 0 then 0 else CountDashes(t[..|t| - 1]) + (if t[|t| - 1] == '-' then 1 else 0)
  }

  /** Segment j of count: empty segments stay empty; the first and last segment are forced. */
  function SegmentOut(c: TitleCaser, seg: string, j: int, count: int, isFirstWord: bool, isLastWord: bool, colon: bool): string
  {
    if |seg| == 0 then ""
    else SegmentCase(c, seg, isFirstWord, isLastWord,
                     MustCap(c, isFirstWord, isLastWord, colon) || j == 0 || j == count - 1)
  }

  /** The cased segments of a hyphenated word. */
  function SegmentOutputs(c: TitleCaser, token: string, isFirstWord: bool, isLastWord: bool, colon: bool): (r: seq<string>)
    ensures |r| == |SplitDash(token)|
  {
    var parts := SplitDash(token);
    seq(|parts|, j requires 0 <= j < |parts| => SegmentOut(c, parts[j], j, |parts|, isFirstWord, isLastWord, colon))
  }

  /** ProcessWord: a hyphenated word (when the option is on) is split, cased segment by segment and joined again. */
  function WordCase(c: TitleCaser, token: string, isFirstWord: bool, isLastWord: bool, colon: bool): string
  {
    if '-' in token && c.opt.capitalizeHyphenatedSegments then
      JoinDash(SegmentOutputs(c, token, isFirstWord, isLastWord, colon))
    else SegmentCase(c, token, isFirstWord, isLastWord, colon)
  }

  method CountSegments(token: string) returns (segCount: int)
    ensures segCount == 1 + CountDashes(token)
  {
    segCount := 1;
    var t := 0;
    while t < |token|
      invariant 0 <= t <= |token|
      invariant segCount == 1 + CountDashes(token[..t])
    {
      assert token[..t + 1][..t] == token[..t];
      if token[t] == '-' { segCount := segCount + 1; }
      t := t + 1;
    }
    assert token[..t] == token;
  }

  /** Segment j of count, as the segment loop computes it. */
  method ProcessSegment(c: TitleCaser, seg: string, segIndex: int, segCount: int, isFirstWord: bool, isLastWord: bool, colon: bool)
    returns (out: string)
    ensures out == SegmentOut(c, seg, segIndex, segCount, isFirstWord, isLastWord, colon)
  {
    var isFirstSeg := segIndex == 0;
    var isLastSeg := segIndex == segCount - 1;
    var forceCapThisSeg := (c.opt.forceCapFirstAndLast && (isFirstWord || isLastWord)) || colon || isFirstSeg || isLastSeg;
    out := "";
    if |seg| > 0 {
      out := ProcessSingleSegment(c, seg, isFirstWord, isLastWord, forceCapThisSeg);
    }
  }

  /** The segment loop from position idx, which is the start of segment segIndex. */
  function HyphenFrom(c: TitleCaser, token: string, idx: int, segIndex: int, segCount: int,
                      isFirstWord: bool, isLastWord: bool, colon: bool): string
    requires 0 <= idx <= |token|
    decreases |token| - idx
  {
    if idx == |token| then ""
    else
      var e := DashFrom(token, idx);
      var out := SegmentOut(c, token[idx..e], segIndex, segCount, isFirstWord, isLastWord, colon);
      if e < |token| then out + "-" + HyphenFrom(c, token, e + 1, segIndex + 1, segCount, isFirstWord, isLastWord, colon)
      else out
  }

  /** The loop, which never visits a trailing empty segment, still joins every split part. */
  lemma {:induction false} HyphenFromIsJoin(c: TitleCaser, token: string, idx: int, segIndex: int, parts: seq<string>, outs: seq<string>,
                                            isFirstWord: bool, isLastWord: bool, colon: bool)
    requires 0 <= idx <= |token| && 0 <= segIndex < |parts|
    requires parts == SplitDash(token) && outs == SegmentOutputs(c, token, isFirstWord, isLastWord, colon)
    requires SplitFrom(token, idx) == parts[segIndex..]
    ensures HyphenFrom(c, token, idx, segIndex, |parts|, isFirstWord, isLastWord, colon) == JoinDash(outs[segIndex..])
    decreases |token| - idx
  {
    NextSegment(c, token, idx, segIndex, parts, outs, isFirstWord, isLastWord, colon);
    var e := DashFrom(token, idx);
    if e < |token| {
      HyphenFromIsJoin(c, token, e + 1, segIndex + 1, parts, outs, isFirstWord, isLastWord, colon);
    } else if idx == |token| {
      assert outs[segIndex] == "";
    }
  }

  /** One step of the segment loop: the segment is appended, and the hyphen after it when there is one. */
  lemma HyphenStep(c: TitleCaser, token: string, sbTok: string, idx: int, segIndex: int, segCount: int,
                   isFirstWord: bool, isLastWord: bool, colon: bool, whole: string)
    requires 0 <= idx < |token|
    requires sbTok + HyphenFrom(c, token, idx, segIndex, segCount, isFirstWord, isLastWord, colon) == whole
    ensures var e := DashFrom(token, idx);
      var out := SegmentOut(c, token[idx..e], segIndex, segCount, isFirstWord, isLastWord, colon);
      && (e < |token| ==> sbTok + out + "-" + HyphenFrom(c, token, e + 1, segIndex + 1, segCount, isFirstWord, isLastWord, colon) == whole)
      && (e == |token| ==> sbTok + out + HyphenFrom(c, token, e, segIndex + 1, segCount, isFirstWord, isLastWord, colon) == whole)
  {
    var e := DashFrom(token, idx);
    var out := SegmentOut(c, token[idx..e], segIndex, segCount, isFirstWord, isLastWord, colon);
    HyphenUnfold(c, token, idx, segIndex, segCount, isFirstWord, isLastWord, colon);
    if e < |token| {
      var rest := HyphenFrom(c, token, e + 1, segIndex + 1, segCount, isFirstWord, isLastWord, colon);
      ConcatAssoc(sbTok, out, "-", rest);
    } else {
      assert HyphenFrom(c, token, e, segIndex + 1, segCount, isFirstWord, isLastWord, colon) == "";
    }
  }

  lemma HyphenUnfold(c: TitleCaser, token: string, idx: int, segIndex: int, segCount: int,
                     isFirstWord: bool, isLastWord: bool, colon: bool)
    requires 0 <= idx < |token|
    ensures var e := DashFrom(token, idx);
      var out := SegmentOut(c, token[idx..e], segIndex, segCount, isFirstWord, isLastWord, colon);
      HyphenFrom(c, token, idx, segIndex, segCount, isFirstWord, isLastWord, colon)
      == if e < |token| then out + "-" + HyphenFrom(c, token, e + 1, segIndex + 1, segCount, isFirstWord, isLastWord, colon) else out
  {
  }

  /** The inner scan of the segment loop: forward to the next hyphen or the end. */
  method ScanToDash(token: string, from: int) returns (idx: int)
    requires 0 <= from <= |token|
    ensures idx == DashFrom(token, from)
  {
    idx := from;
    while idx < |token| && token[idx] != '-'
      invariant from <= idx <= |token|
      invariant DashFrom(token, idx) == DashFrom(token, from)
    {
      idx := idx + 1;
    }
  }

  /** The hyphenated branch of ProcessWord: split at each hyphen, case the segments, keep the hyphens. */
  method ProcessHyphenated(c: TitleCaser, token: string, isFirstWord: bool, isLastWord: bool, colon: bool) returns (r: string)
    ensures r == JoinDash(SegmentOutputs(c, token, isFirstWord, isLastWord, colon))
  {
    var segCount := CountSegments(token);
    SplitDashLength(token);
    var sbTok := "";
    var idx, segIndex := 0, 0;
    ghost var whole := HyphenFrom(c, token, 0, 0, segCount, isFirstWord, isLastWord, colon);
    while idx < |token|
      invariant 0 <= idx <= |token|
      invariant sbTok + HyphenFrom(c, token, idx, segIndex, segCount, isFirstWord, isLastWord, colon) == whole
      decreases |token| - idx
    {
      var dash := ScanToDash(token, idx);
      HyphenStep(c, token, sbTok, idx, segIndex, segCount, isFirstWord, isLastWord, colon, whole);
      var out := ProcessSegment(c, token[idx..dash], segIndex, segCount, isFirstWord, isLastWord, colon);
      sbTok := sbTok + out;
      if dash < |token| {
        sbTok := sbTok + "-";
        idx := dash + 1;
      } else {
        idx := dash;
      }
      segIndex := segIndex + 1;
    }
    assert HyphenFrom(c, token, idx, segIndex, segCount, isFirstWord, isLastWord, colon) == "";
    HyphenFromIsJoin(c, token, 0, 0, SplitDash(token), SegmentOutputs(c, token, isFirstWord, isLastWord, colon),
                     isFirstWord, isLastWord, colon);
    r := sbTok;
  }

  method ProcessWord(c: TitleCaser, token: string, isFirstWord: bool, isLastWord: bool, colon: bool) returns (r: string)
    ensures r == WordCase(c, token, isFirstWord, isLastWord, colon)
  {
    if '-' in token && c.opt.capitalizeHyphenatedSegments {
      r := ProcessHyphenated(c, token, isFirstWord, isLastWord, colon);
      return;
    }
    r := ProcessSingleSegment(c, token, isFirstWord, isLastWord, colon);
  }

  /** One step of the segment loop: the segment at segStart is parts[segIndex], and what follows it. */
  lemma NextSegment(c: TitleCaser, token: string, segStart: int, segIndex: int, parts: seq<string>, outs: seq<string>,
                    isFirstWord: bool, isLastWord: bool, colon: bool)
    requires 0 <= segStart <= |token| && 0 <= segIndex < |parts|
    requires parts == SplitDash(token) && outs == SegmentOutputs(c, token, isFirstWord, isLastWord, colon)
    requires SplitFrom(token, segStart) == parts[segIndex..]
    ensures var e := DashFrom(token, segStart);
      && parts[segIndex] == token[segStart..e]
      && outs[segIndex] == SegmentOut(c, token[segStart..e], segIndex, |parts|, isFirstWord, isLastWord, colon)
      && (e < |token| ==> segIndex + 1 < |parts| && SplitFrom(token, e + 1) == parts[segIndex + 1..]
                          && JoinDash(outs[segIndex..]) == outs[segIndex] + "-" + JoinDash(outs[segIndex + 1..]))
      && (e == |token| ==> segIndex == |parts| - 1 && JoinDash(outs[segIndex..]) == outs[segIndex])
  {
    var e := DashFrom(token, segStart);
    assert parts[segIndex..][0] == parts[segIndex];
    if e < |token| {
      assert parts[segIndex..][1..] == parts[segIndex + 1..];
      assert outs[segIndex..][1..] == outs[segIndex + 1..];
    }
  }

  /** The source counts segments as one more than the hyphens; that is the number of split parts. */
  lemma SplitDashLength(t: string)
    ensures |SplitDash(t)| == 1 + CountDashes(t)
  {
    SplitFromLength(t, 0);
    assert t[0..] == t;
  }

  lemma {:induction false} SplitFromLength(t: string, i: int)
    requires 0 <= i <= |t|
    ensures |SplitFrom(t, i)| == 1 + CountDashes(t[i..])
    decreases |t| - i
  {
    var e := DashFrom(t, i);
    if e < |t| {
      SplitFromLength(t, e + 1);
      DashesAfterSegment(t, i);
    } else {
      NoDashesCount(t[i..]);
    }
  }

  /** Up to the first hyphen from i there is none; that hyphen is counted once. */
  lemma DashesAfterSegment(t: string, i: int)
    requires 0 <= i <= |t| && DashFrom(t, i) < |t|
    ensures CountDashes(t[i..]) == 1 + CountDashes(t[DashFrom(t, i) + 1..])
  {
    var e := DashFrom(t, i);
    NoDashesCount(t[i..e]);
    assert t[i..] == t[i..e] + "-" + t[e + 1..];
    CountDashesConcat(t[i..e] + "-", t[e + 1..]);
    CountDashesConcat(t[i..e], "-");
  }

  lemma {:induction false} NoDashesCount(s: string)
    requires forall k :: 0 <= k < |s| ==> s[k] != '-'
    ensures CountDashes(s) == 0
    decreases |s|
  {
    if |s| > 0 { NoDashesCount(s[..|s| - 1]); }
  }

  lemma {:induction false} CountDashesConcat(a: string, b: string)
    ensures CountDashes(a + b) == CountDashes(a) + CountDashes(b)
    decreases |b|
  {
    if |b| > 0 {
      assert (a + b)[..|a + b| - 1] == a + b[..|b| - 1];
      CountDashesConcat(a, b[..|b| - 1]);
    } else {
      assert a + b == a;
    }
  }

  // ---------------------------------------------------------------- the whole conversion

  /**
   * The scan from i: force says whether a colon (with the option on) has
   * been copied since the last word.
   */
  function TitleFrom(c: TitleCaser, text: string, i: int, force: bool, firstStart: int, lastStart: int): string
    requires 0 <= i <= |text|
    decreases |text| - i
  {
    if i == |text| then []
    else if IsLetterOrDigit(text[i]) then
      var e := WordEnd(text, i);
      WordCase(c, text[i..e], i == firstStart, i == lastStart, force) + TitleFrom(c, text, e, false, firstStart, lastStart)
    else [text[i]] + TitleFrom(c, text, i + 1, force || (c.opt.capitalizeAfterColon && text[i] == ':'), firstStart, lastStart)
  }

  /** The converter's result: empty text is returned as it is, other text is newline-unified and scanned. */
  function ToTitleCase(c: TitleCaser, input: string): string
  {
    if |input| == 0 then input
    else
      var text := NormalizeNewlines(input);
      TitleFrom(c, text, 0, false, FirstWordStart(text), LastWordStart(text))
  }

  /** One word of the scan: its cased form is appended and the colon flag is consumed. */
  lemma TitleFromAtWord(c: TitleCaser, text: string, sb: string, i: int, force: bool, firstStart: int, lastStart: int, whole: string)
    requires 0 <= i < |text| && IsLetterOrDigit(text[i])
    requires sb + TitleFrom(c, text, i, force, firstStart, lastStart) == whole
    ensures var e := WordEnd(text, i);
      sb + WordCase(c, text[i..e], i == firstStart, i == lastStart, force) + TitleFrom(c, text, e, false, firstStart, lastStart) == whole
  {
    var e := WordEnd(text, i);
    var w := WordCase(c, text[i..e], i == firstStart, i == lastStart, force);
    assert TitleFrom(c, text, i, force, firstStart, lastStart) == w + TitleFrom(c, text, e, false, firstStart, lastStart);
  }

  /** One separator of the scan: it is copied, and a colon sets the flag when the option is on. */
  lemma TitleFromAtChar(c: TitleCaser, text: string, sb: string, i: int, force: bool, firstStart: int, lastStart: int, whole: string)
    requires 0 <= i < |text| && !IsLetterOrDigit(text[i])
    requires sb + TitleFrom(c, text, i, force, firstStart, lastStart) == whole
    ensures sb + [text[i]] + TitleFrom(c, text, i + 1, force || (c.opt.capitalizeAfterColon && text[i] == ':'), firstStart, lastStart) == whole
  {
    var rest := TitleFrom(c, text, i + 1, force || (c.opt.capitalizeAfterColon && text[i] == ':'), firstStart, lastStart);
    assert TitleFrom(c, text, i, force, firstStart, lastStart) == [text[i]] + rest;
    assert sb + [text[i]] + rest == sb + ([text[i]] + rest);
  }

  /** TitleCaseConverter.Convert. */
  method Convert(c: TitleCaser, input: string) returns (out: string)
    ensures out == ToTitleCase(c, input)
  {
    if |input| == 0 { return input; }
    var text := NormalizeNewlines(input);
    var sb := "";
    var firstWordStart := FindFirstWordStart(text);
    var lastWordStart := FindLastWordStart(text);
    var forceNextWordCap := false;
    var i, n := 0, |text|;
    ghost var whole := TitleFrom(c, text, 0, false, firstWordStart, lastWordStart);
    while i < n
      invariant 0 <= i <= n
      invariant sb + TitleFrom(c, text, i, forceNextWordCap, firstWordStart, lastWordStart) == whole
      decreases n - i
    {
      var ch := text[i];
      if IsLetterOrDigit(ch) {
        var start := i;
        i := ScanWordEnd(text, start);
        TitleFromAtWord(c, text, sb, start, forceNextWordCap, firstWordStart, lastWordStart, whole);
        var token := text[start..i];
        var isFirstWord := start == firstWordStart;
        var isLastWord := start == lastWordStart;
        var outTok := ProcessWord(c, token, isFirstWord, isLastWord, forceNextWordCap);
        sb := sb + outTok;
        forceNextWordCap := false;
        continue;
      }
      TitleFromAtChar(c, text, sb, i, forceNextWordCap, firstWordStart, lastWordStart, whole);
      sb := sb + [ch];
      if c.opt.capitalizeAfterColon && ch == ':' {
        forceNextWordCap := true;
      }
      i := i + 1;
    }
    out := sb;
  }
}
