/**
 * The sentence-case converter: a single left-to-right scan that copies every
 * character that is not part of a token and replaces each token (a run of
 * letters, digits and apostrophes that starts at a letter or digit) by the
 * form a priority cascade picks, while it tracks sentence starts, wrapper
 * depth and the honorific carry-over.
 *
 * The scan and its helpers are methods; each is proved equal to a pure
 * function of the same name family (TokenStep, CharStep, SentenceFrom), and
 * the properties of the converter are lemmas about those functions.
 */
module SentenceCase {
  import opened Chars
  import opened Text
  import opened Wrappers
  import opened Lexicon
  import opened TokenShape

  // ---------------------------------------------------------------- scanner state

  /** The converter's local variables between two characters of the scan. */
  datatype ScanState = ScanState(
    atSentenceStart: bool,
    wrapperDepth: int,
    pendingSecondWrapperCap: bool,
    inDoubleQuote: bool,
    inSingleQuote: bool,
    prevHadDigit: bool,
    prevWasBrand: bool,
    prevWasHonorific: bool,
    prevHonorificDepth: int)

  const InitialState := ScanState(true, 0, false, false, false, false, false, false, -1)

  // ---------------------------------------------------------------- character classes

  predicate IsTokenChar(c: char) { IsLetterOrDigit(c) || IsApostrophe(c) }

  predicate IsSentenceTerminator(c: char) { c == '.' || c == '!' || c == '?' }

  /** Straight and curly quotes and the closing brackets. */
  predicate IsWrapper(c: char)
  {
    c == '"' || c == '\U{201C}' || c == '\U{201D}' || c == '\'' || c == '\U{2019}'
    || c == ')' || c == ']' || c == '}'
  }

  predicate IsLetterOrDot(c: char) { IsLetter(c) || c == '.' }

  // ---------------------------------------------------------------- token scan

  /** The end of the maximal run of token characters that starts at i. */
  function TokenEnd(text: string, i: int): (r: int)
    requires 0 <= i <= |text|
    ensures i <= r <= |text|
    ensures forall k :: i <= k < r ==> IsTokenChar(text[k])
    ensures r == |text| || !IsTokenChar(text[r])
    decreases |text| - i
  {
    if i < |text| && IsTokenChar(text[i]) then TokenEnd(text, i + 1) else i
  }

  method ScanTokenEnd(text: string, start: int) returns (i: int)
    requires 0 <= start <= |text|
    ensures i == TokenEnd(text, start)
  {
    i := start;
    while i < |text| && (IsLetterOrDigit(text[i]) || text[i] == '\'' || text[i] == '\U{2019}')
      invariant start <= i <= |text|
      invariant TokenEnd(text, i) == TokenEnd(text, start)
    {
      i := i + 1;
    }
  }

  // ---------------------------------------------------------------- token predicates

  predicate ContainsDigit(t: string) { exists k :: 0 <= k < |t| && IsDigit(t[k]) }

  method HasDigit(token: string) returns (b: bool)
    ensures b == ContainsDigit(token)
  {
    var k := 0;
    while k < |token|
      invariant 0 <= k <= |token|
      invariant forall q :: 0 <= q < k ==> !IsDigit(token[q])
    {
      if IsDigit(token[k]) { return true; }
      k := k + 1;
    }
    return false;
  }

  predicate ContainsApostrophe(t: string) { exists k :: 0 <= k < |t| && IsApostrophe(t[k]) }

  /**
   * The acronym test: at least two letters, nothing but upper-case letters,
   * and either whitelisted or, when the option allows it, at most three
   * letters and not a stopword.
   */
  predicate AllCapsAcronym(lex: SentenceCaseLexicon, opt: SentenceCaseOptions, t: string)
  {
    |t| >= 2 && AllUpperLetters(t)
    && (lex.upperAcronyms.Contains(t)
        || (opt.treatUnknownShortAllCapsAsAcronym && |t| <= 3 && !lex.upperShortStopwords.Contains(t)))
  }

  method IsAllCapsAcronym(lex: SentenceCaseLexicon, opt: SentenceCaseOptions, token: string) returns (b: bool)
    ensures b == AllCapsAcronym(lex, opt, token)
  {
    if |token| == 0 { return false; }
    var letters := 0;
    var i := 0;
    while i < |token|
      invariant 0 <= i <= |token| && letters == i
      invariant forall k :: 0 <= k < i ==> IsUpper(token[k])
    {
      var ch := token[i];
      if IsLetter(ch) {
        letters := letters + 1;
        if !IsUpper(ch) { return false; }
      } else {
        return false;
      }
      i := i + 1;
    }
    if letters < 2 { return false; }
    if lex.upperAcronyms.Contains(token) { return true; }
    if opt.treatUnknownShortAllCapsAsAcronym && letters <= 3 && !lex.upperShortStopwords.Contains(token) {
      return true;
    }
    return false;
  }

  /** The position of the first apostrophe, or -1. */
  function FirstApostrophe(t: string): (r: int)
    ensures -1 <= r < |t|
    ensures r >= 0 ==> IsApostrophe(t[r]) && forall k :: 0 <= k < r ==> !IsApostrophe(t[k])
    ensures r == -1 ==> !ContainsApostrophe(t)
  {
    if t == [] then -1
    else if IsApostrophe(t[0]) then 0
    else var r := FirstApostrophe(t[1..]); if r == -1 then -1 else r + 1
  }

  /** Contractions and possessives: it's, we're, they'll, o'clock. */
  predicate LooksLikeContractionOrPossessive(t: string)
  {
    var apos := FirstApostrophe(t);
    0 < apos < |t| - 1
    && var tail := Lower(t[apos + 1..]);
    (tail in {"s", "t", "d", "m", "n", "ll", "re", "ve", "em"}
     || (apos == 1 && (t[0] == 'o' || t[0] == 'O') && tail == "clock"))
  }

  /** The first character upper-cased and the rest lower-cased. */
  function UpperFirstLowerRest(t: string): string
  {
    if |t| == 0 then t else [ToUpper(t[0])] + Lower(t[1..])
  }

  /** The result is a case variant of the token whose first letter is a capital and whose other letters are small. */
  lemma UpperFirstLowerRestShape(t: string)
    ensures CaseVariant(UpperFirstLowerRest(t), t)
    ensures |t| > 0 ==> UpperFirstLowerRest(t)[0] == ToUpper(t[0])
    ensures forall k :: 1 <= k < |t| ==> UpperFirstLowerRest(t)[k] == ToLower(t[k])
  {
    if |t| > 0 {
      LowerUpperAreCaseVariants(t[1..]);
      FoldOfCase(t[0]);
      CaseVariantConcat([ToUpper(t[0])], [t[0]], Lower(t[1..]), t[1..]);
      assert [t[0]] + t[1..] == t;
    }
  }

  lemma LowerIsIdempotent(s: string)
    ensures Lower(Lower(s)) == Lower(s)
  {
    forall k | 0 <= k < |s| ensures Lower(Lower(s))[k] == Lower(s)[k] {
      FoldOfCase(s[k]);
    }
  }

  // ---------------------------------------------------------------- dots

  /** The text with every '.' removed. */
  function RemoveDots(d: string): (r: string)
    ensures '.' !in r && |r| <= |d|
  {
    if d == [] then []
    else
      assert d == d[..|d| - 1] + [d[|d| - 1]];
      RemoveDots(d[..|d| - 1]) + (if d[|d| - 1] == '.' then [] else [d[|d| - 1]])
  }

  /** Removing dots keeps the order of what is left: it distributes over concatenation. */
  lemma {:induction false} RemoveDotsConcat(a: string, b: string)
    ensures RemoveDots(a + b) == RemoveDots(a) + RemoveDots(b)
    decreases |b|
  {
    if b != [] {
      var b0 := b[..|b| - 1];
      assert (a + b)[..|a + b| - 1] == a + b0;
      RemoveDotsConcat(a, b0);
    } else {
      assert a + b == a;
    }
  }

  /** Removing dots from a text with one more character at its end. */
  lemma RemoveDotsSnoc(d: string)
    requires d != []
    ensures var d0, x := d[..|d| - 1], d[|d| - 1];
      && RemoveDots(d) == RemoveDots(d0) + (if x == '.' then [] else [x])
      && multiset(d) == multiset(d0) + multiset{x}
  {
    assert d == d[..|d| - 1] + [d[|d| - 1]];
  }

  /** Only the dots go: every other character is kept as often as it occurs. */
  lemma {:induction false} RemoveDotsCounts(d: string)
    ensures forall c :: c != '.' ==> multiset(RemoveDots(d))[c] == multiset(d)[c]
    decreases |d|
  {
    if d != [] {
      var d0, x := d[..|d| - 1], d[|d| - 1];
      RemoveDotsCounts(d0);
      RemoveDotsSnoc(d);
      var kept := if x == '.' then [] else [x];
      assert multiset(RemoveDots(d)) == multiset(RemoveDots(d0)) + multiset(kept);
    }
  }

  /** So the dot-free text is shorter by exactly the number of dots. */
  lemma {:induction false} RemoveDotsLength(d: string)
    ensures |RemoveDots(d)| == |d| - multiset(d)['.']
    decreases |d|
  {
    if d != [] {
      RemoveDotsLength(d[..|d| - 1]);
      RemoveDotsSnoc(d);
    }
  }

  /** A text without dots is its own dot-free form. */
  lemma {:induction false} RemoveDotsWithoutDots(d: string)
    requires '.' !in d
    ensures RemoveDots(d) == d
    decreases |d|
  {
    if d != [] {
      RemoveDotsWithoutDots(d[..|d| - 1]);
      assert d == d[..|d| - 1] + [d[|d| - 1]];
    }
  }

  /** The text without its trailing dots; inner dots stay. */
  function DropTrailingDots(d: string): (r: string)
    ensures r <= d
    ensures r == [] || r[|r| - 1] != '.'
    ensures forall k :: |r| <= k < |d| ==> d[k] == '.'
  {
    if |d| > 0 && d[|d| - 1] == '.' then DropTrailingDots(d[..|d| - 1]) else d
  }

  method TrimDotsToLower(dotted: string) returns (r: string)
    ensures r == Lower(RemoveDots(dotted))
  {
    r := "";
    var i := 0;
    while i < |dotted|
      invariant 0 <= i <= |dotted|
      invariant r == Lower(RemoveDots(dotted[..i]))
    {
      var ch := dotted[i];
      assert dotted[..i + 1][..i] == dotted[..i];
      LowerConcat(RemoveDots(dotted[..i]), if ch == '.' then [] else [ch]);
      if ch != '.' { r := r + [ToLower(ch)]; }
      i := i + 1;
    }
    assert dotted[..i] == dotted;
  }

  method TrimDotsToUpper(dotted: string) returns (r: string)
    ensures r == Upper(RemoveDots(dotted))
  {
    r := "";
    var i := 0;
    while i < |dotted|
      invariant 0 <= i <= |dotted|
      invariant r == Upper(RemoveDots(dotted[..i]))
    {
      var ch := dotted[i];
      assert dotted[..i + 1][..i] == dotted[..i];
      UpperConcat(RemoveDots(dotted[..i]), if ch == '.' then [] else [ch]);
      if ch != '.' { r := r + [ToUpper(ch)]; }
      i := i + 1;
    }
    assert dotted[..i] == dotted;
  }

  method TrimTrailingDotToLower(dotted: string) returns (r: string)
    ensures r == Lower(DropTrailingDots(dotted))
  {
    var end := |dotted|;
    while end > 0 && dotted[end - 1] == '.'
      invariant 0 <= end <= |dotted|
      invariant DropTrailingDots(dotted[..end]) == DropTrailingDots(dotted)
    {
      assert dotted[..end - 1] == dotted[..end][..end - 1];
      end := end - 1;
    }
    r := LowerPrefix(dotted, end);
  }

  /** The lower-cased first end characters. */
  method LowerPrefix(s: string, end: int) returns (r: string)
    requires 0 <= end <= |s|
    ensures r == Lower(s[..end])
  {
    r := "";
    var k := 0;
    while k < end
      invariant 0 <= k <= end
      invariant r == Lower(s[..k])
    {
      assert s[..k + 1] == s[..k] + [s[k]];
      LowerConcat(s[..k], [s[k]]);
      r := r + [ToLower(s[k])];
      k := k + 1;
    }
  }

  /** No lookup key built from a dotted run ends with a dot, so the entry "a.i." is never matched. */
  lemma DottedKeysHaveNoTrailingDot(d: string)
    ensures Lower(RemoveDots(d)) != "a.i." && Lower(DropTrailingDots(d)) != "a.i."
    ensures Upper(RemoveDots(d)) != "A.I."
  {
    var r := DropTrailingDots(d);
    if r != [] {
      assert Lower(r)[|r| - 1] == ToLower(r[|r| - 1]) != '.';
    }
    var nd := RemoveDots(d);
    if |nd| == 4 {
      assert Lower(nd)[3] == ToLower(nd[3]) != '.';
      assert Upper(nd)[3] == ToUpper(nd[3]) != '.';
    }
  }

  // ---------------------------------------------------------------- dotted runs

  /** Scanning left from p over letters and dots: the last position not in the run, or -1. */
  function RunLeft(text: string, p: int): (r: int)
    requires -1 <= p < |text|
    ensures -1 <= r <= p
    ensures forall k :: r < k <= p ==> IsLetterOrDot(text[k])
    ensures r == -1 || !IsLetterOrDot(text[r])
    decreases p + 1
  {
    if p >= 0 && IsLetterOrDot(text[p]) then RunLeft(text, p - 1) else p
  }

  /** Scanning right from p over letters and dots: the first position not in the run. */
  function RunRight(text: string, p: int): (r: int)
    requires 0 <= p <= |text|
    ensures p <= r <= |text|
    ensures forall k :: p <= k < r ==> IsLetterOrDot(text[k])
    ensures r == |text| || !IsLetterOrDot(text[r])
    decreases |text| - p
  {
    if p < |text| && IsLetterOrDot(text[p]) then RunRight(text, p + 1) else p
  }

  /** The letters-and-dots run around the gap between leftFrom and rightFrom. */
  function DottedRun(text: string, leftFrom: int, rightFrom: int): string
    requires -1 <= leftFrom < rightFrom <= |text|
  {
    text[RunLeft(text, leftFrom) + 1..RunRight(text, rightFrom)]
  }

  method ScanDottedRun(text: string, leftFrom: int, rightFrom: int) returns (dotted: string)
    requires -1 <= leftFrom < rightFrom <= |text|
    ensures dotted == DottedRun(text, leftFrom, rightFrom)
  {
    var left := ScanRunLeft(text, leftFrom);
    var right := ScanRunRight(text, rightFrom);
    dotted := text[left + 1..right];
  }

  method ScanRunLeft(text: string, leftFrom: int) returns (left: int)
    requires -1 <= leftFrom < |text|
    ensures left == RunLeft(text, leftFrom)
  {
    left := leftFrom;
    while left >= 0 && (IsLetter(text[left]) || text[left] == '.')
      invariant -1 <= left <= leftFrom
      invariant RunLeft(text, left) == RunLeft(text, leftFrom)
    {
      left := left - 1;
    }
  }

  method ScanRunRight(text: string, rightFrom: int) returns (right: int)
    requires 0 <= rightFrom <= |text|
    ensures right == RunRight(text, rightFrom)
  {
    right := rightFrom;
    while right < |text| && (IsLetter(text[right]) || text[right] == '.')
      invariant rightFrom <= right <= |text|
      invariant RunRight(text, right) == RunRight(text, rightFrom)
    {
      right := right + 1;
    }
  }

  /** A word follows: some character from p on is neither white space nor a wrapper. */
  predicate WordFollows(text: string, p: int)
  {
    exists q :: 0 <= p <= q < |text| && !IsWhiteSpace(text[q]) && !IsWrapper(text[q])
  }

  method ScanForWord(text: string, p: int) returns (b: bool)
    requires 0 <= p
    ensures b == WordFollows(text, p)
  {
    var j := p;
    while j < |text| && (IsWhiteSpace(text[j]) || IsWrapper(text[j]))
      invariant p <= j
      invariant forall q :: p <= q < j && q < |text| ==> IsWhiteSpace(text[q]) || IsWrapper(text[q])
    {
      j := j + 1;
    }
    b := j < |text|;
  }

  // ---------------------------------------------------------------- lexicon lookups

  /** HasBases?.Contains(w) == true: an absent set contains nothing. */
  predicate IsHonorific(lex: SentenceCaseLexicon, w: string)
  {
    match lex.honorificBases
    case None => false
    case Some(h) => h.Contains(w)
  }

  predicate IsAbbreviationBase(lex: SentenceCaseLexicon, w: string)
  {
    IsHonorific(lex, w) || lex.nonTerminalAbbreviations.Contains(w)
  }

  /** The token ends right before a '.' and is an honorific or a non-terminal abbreviation. */
  predicate AbbreviationBeforeDot(lex: SentenceCaseLexicon, text: string, start: int, i: int)
    requires 0 <= start <= i <= |text|
  {
    i < |text| && text[i] == '.' && IsAbbreviationBase(lex, Lower(text[start..i]))
  }

  // ---------------------------------------------------------------- the token cascade

  /** The token at sentence start that is not an abbreviation before a dot. */
  function StartWord(lex: SentenceCaseLexicon, opt: SentenceCaseOptions, token: string): string
  {
    if AllCapsAcronym(lex, opt, token) || ContainsDigit(token) then token
    else if ContainsApostrophe(token) then
      (if LooksLikeContractionOrPossessive(token) then UpperFirstLowerRest(token) else CapApostrophes(token))
    else UpperFirstLowerRest(token)
  }

  function StartToken(lex: SentenceCaseLexicon, opt: SentenceCaseOptions, text: string, start: int, i: int, st: ScanState): (string, ScanState)
    requires 0 <= start < i <= |text|
  {
    var token := text[start..i];
    if AbbreviationBeforeDot(lex, text, start, i) then
      (UpperFirstLowerRest(token),
       st.(prevWasHonorific := IsHonorific(lex, Lower(token)), prevHonorificDepth := st.wrapperDepth))
    else (StartWord(lex, opt, token), st)
  }

  /** A single letter before a dot, cased by the dotted run around it. */
  function DottedInitial(lex: SentenceCaseLexicon, token: string, dotted: string): string
  {
    if lex.upperAcronyms.Contains(Upper(RemoveDots(dotted))) then Upper(token)
    else if lex.nonTerminalAbbreviations.Contains(Lower(RemoveDots(dotted)))
         || lex.nonTerminalAbbreviations.Contains(Lower(DropTrailingDots(dotted))) then Lower(token)
    else token
  }

  /** The normal mid-sentence flow. */
  function MidWord(lex: SentenceCaseLexicon, opt: SentenceCaseOptions, token: string, st: ScanState): string
  {
    if lex.properCaseTokens.Contains(token) then CapApostrophes(token)
    else if lex.brandSuffixes.Contains(token) && (st.prevWasBrand || st.prevHadDigit) then CapApostrophes(token)
    else if (opt.preserveAcronymsMidSentence && AllCapsAcronym(lex, opt, token)) || CamelOrMixed(token) || ContainsDigit(token) then token
    else Lower(token)
  }

  /** The mid-sentence rules after the honorific carry-over has been consumed. */
  function MidRules(lex: SentenceCaseLexicon, opt: SentenceCaseOptions, text: string, start: int, i: int, st: ScanState): (string, ScanState)
    requires 0 <= start < i <= |text|
  {
    var token := text[start..i];
    if AbbreviationBeforeDot(lex, text, start, i) then
      (UpperFirstLowerRest(token),
       st.(prevWasHonorific := IsHonorific(lex, Lower(token)), prevHonorificDepth := st.wrapperDepth))
    else if |token| == 1 && i < |text| && text[i] == '.' then
      (DottedInitial(lex, token, DottedRun(text, start - 1, i)), st)
    else (MidWord(lex, opt, token, st), st)
  }

  /** A mid-sentence token: the carry-over is cleared, and applied only at the depth where it was set. */
  function MidToken(lex: SentenceCaseLexicon, opt: SentenceCaseOptions, text: string, start: int, i: int, st: ScanState): (string, ScanState)
    requires 0 <= start < i <= |text|
  {
    var cleared := st.(prevWasHonorific := false);
    if st.prevWasHonorific && st.wrapperDepth == st.prevHonorificDepth then
      (UpperFirstLowerRest(text[start..i]), cleared)
    else MidRules(lex, opt, text, start, i, cleared)
  }

  predicate IsPronounI(token: string) { |token| == 1 && (token[0] == 'i' || token[0] == 'I') }

  /** The cascade: the proper-case map first, then the pronoun, then the sentence-start or mid-sentence rules. */
  function TokenCase(lex: SentenceCaseLexicon, opt: SentenceCaseOptions, text: string, start: int, i: int, st: ScanState): (string, ScanState)
    requires 0 <= start < i <= |text|
  {
    var token := text[start..i];
    match lex.properCaseMap(token)
    case Some(mapped) => (mapped, st)
    case None =>
      if IsPronounI(token) then ("I", st)
      else if st.atSentenceStart then StartToken(lex, opt, text, start, i, st)
      else MidToken(lex, opt, text, start, i, st)
  }

  /** One token: its output and the state after it. */
  function TokenStep(lex: SentenceCaseLexicon, opt: SentenceCaseOptions, text: string, start: int, i: int, st: ScanState): (string, ScanState)
    requires 0 <= start < i <= |text|
  {
    var (outTok, st1) := TokenCase(lex, opt, text, start, i, st);
    (outTok, st1.(atSentenceStart := false,
                  pendingSecondWrapperCap := st1.pendingSecondWrapperCap && st1.wrapperDepth != 0,
                  prevHadDigit := ContainsDigit(text[start..i]),
                  prevWasBrand := lex.brandTokens.Contains(outTok)))
  }

  // ---------------------------------------------------------------- non-token characters

  /** Closing one level of wrapper; at depth 0 a pending second-wrapper capital arms sentence start. */
  function CloseWrapper(st: ScanState): ScanState
    requires st.wrapperDepth > 0
  {
    var d := st.wrapperDepth - 1;
    if d == 0 && st.pendingSecondWrapperCap then st.(wrapperDepth := d, atSentenceStart := true, pendingSecondWrapperCap := false)
    else st.(wrapperDepth := d)
  }

  /** Wrapper and quote tracking for one character. */
  function WrapperStep(st: ScanState, c: char): ScanState
  {
    if c == '(' || c == '[' || c == '{' then st.(wrapperDepth := st.wrapperDepth + 1)
    else if c == ')' || c == ']' || c == '}' then
      var d := if st.wrapperDepth > 0 then st.wrapperDepth - 1 else st.wrapperDepth;
      if d == 0 && st.pendingSecondWrapperCap then st.(wrapperDepth := d, atSentenceStart := true, pendingSecondWrapperCap := false)
      else st.(wrapperDepth := d)
    else if c == '"' then
      var s1 := st.(inDoubleQuote := !st.inDoubleQuote);
      if s1.inDoubleQuote then s1.(wrapperDepth := s1.wrapperDepth + 1)
      else if s1.wrapperDepth > 0 then CloseWrapper(s1)
      else s1
    else if c == '\'' then
      var s1 := st.(inSingleQuote := !st.inSingleQuote);
      if s1.inSingleQuote then s1.(wrapperDepth := s1.wrapperDepth + 1)
      else if s1.wrapperDepth > 0 then CloseWrapper(s1)
      else s1
    else st
  }

  /** A '.' with a digit on both sides: a decimal point, not a sentence end. */
  predicate DecimalPoint(text: string, i: int)
    requires 0 <= i < |text|
  {
    i > 0 && i + 1 < |text| && IsDigit(text[i - 1]) && IsDigit(text[i + 1])
  }

  /** The dotted run around a terminator, stripped, is a known non-terminal abbreviation. */
  predicate AbbreviationAt(lex: SentenceCaseLexicon, text: string, i: int)
    requires 0 <= i < |text|
  {
    var dotted := DottedRun(text, i - 1, i + 1);
    lex.nonTerminalAbbreviations.Contains(Lower(RemoveDots(dotted)))
    || lex.nonTerminalAbbreviations.Contains(Lower(DropTrailingDots(dotted)))
  }

  /** A sentence terminator arms the next sentence when it is a real sentence end with a word after it. */
  function TerminatorStep(lex: SentenceCaseLexicon, text: string, i: int, st: ScanState): ScanState
    requires 0 <= i < |text|
  {
    if DecimalPoint(text, i) || AbbreviationAt(lex, text, i) || !WordFollows(text, i + 1) then st
    else st.(atSentenceStart := true, pendingSecondWrapperCap := true)
  }

  /** One character that does not start a token. */
  function CharStep(lex: SentenceCaseLexicon, text: string, i: int, st: ScanState): ScanState
    requires 0 <= i < |text|
  {
    var c := text[i];
    var st1 := WrapperStep(st, c);
    if IsSentenceTerminator(c) then TerminatorStep(lex, text, i, st1)
    else if c == '\n' then st1.(atSentenceStart := true)
    else st1
  }

  // ---------------------------------------------------------------- the whole conversion

  function SentenceFrom(lex: SentenceCaseLexicon, opt: SentenceCaseOptions, text: string, i: int, st: ScanState): string
    requires 0 <= i <= |text|
    decreases |text| - i
  {
    if i == |text| then []
    else if IsLetterOrDigit(text[i]) then
      var e := TokenEnd(text, i);
      var (outTok, st1) := TokenStep(lex, opt, text, i, e, st);
      outTok + SentenceFrom(lex, opt, text, e, st1)
    else [text[i]] + SentenceFrom(lex, opt, text, i + 1, CharStep(lex, text, i, st))
  }

  lemma SentenceFromAtToken(lex: SentenceCaseLexicon, opt: SentenceCaseOptions, text: string, i: int, st: ScanState)
    requires 0 <= i < |text| && IsLetterOrDigit(text[i])
    ensures var e := TokenEnd(text, i);
      SentenceFrom(lex, opt, text, i, st)
      == TokenStep(lex, opt, text, i, e, st).0 + SentenceFrom(lex, opt, text, e, TokenStep(lex, opt, text, i, e, st).1)
  {
  }

  lemma SentenceFromAtChar(lex: SentenceCaseLexicon, opt: SentenceCaseOptions, text: string, i: int, st: ScanState)
    requires 0 <= i < |text| && !IsLetterOrDigit(text[i])
    ensures SentenceFrom(lex, opt, text, i, st) == [text[i]] + SentenceFrom(lex, opt, text, i + 1, CharStep(lex, text, i, st))
  {
  }

  /** One token of the scan, stated for an output built so far. */
  lemma ProgressAtToken(lex: SentenceCaseLexicon, opt: SentenceCaseOptions, text: string, sb: string, i: int, st: ScanState, whole: string)
    requires 0 <= i < |text| && IsLetterOrDigit(text[i])
    requires sb + SentenceFrom(lex, opt, text, i, st) == whole
    ensures var e := TokenEnd(text, i);
      sb + TokenStep(lex, opt, text, i, e, st).0 + SentenceFrom(lex, opt, text, e, TokenStep(lex, opt, text, i, e, st).1) == whole
  {
    var e := TokenEnd(text, i);
    var (outTok, st1) := TokenStep(lex, opt, text, i, e, st);
    SentenceFromAtToken(lex, opt, text, i, st);
    assert sb + outTok + SentenceFrom(lex, opt, text, e, st1) == sb + (outTok + SentenceFrom(lex, opt, text, e, st1));
  }

  /** One copied character of the scan, stated for an output built so far. */
  lemma ProgressAtChar(lex: SentenceCaseLexicon, opt: SentenceCaseOptions, text: string, sb: string, i: int, st: ScanState, whole: string)
    requires 0 <= i < |text| && !IsLetterOrDigit(text[i])
    requires sb + SentenceFrom(lex, opt, text, i, st) == whole
    ensures sb + [text[i]] + SentenceFrom(lex, opt, text, i + 1, CharStep(lex, text, i, st)) == whole
  {
    var rest := SentenceFrom(lex, opt, text, i + 1, CharStep(lex, text, i, st));
    SentenceFromAtChar(lex, opt, text, i, st);
    assert sb + [text[i]] + rest == sb + ([text[i]] + rest);
  }

  /** The converter's result: empty text is returned as it is, other text is newline-unified and scanned. */
  function ToSentenceCase(lex: SentenceCaseLexicon, opt: SentenceCaseOptions, input: string): string
  {
    if input == [] then input else SentenceFrom(lex, opt, NormalizeNewlines(input), 0, InitialState)
  }

  // ---------------------------------------------------------------- the imperative converter

  method StartOfSentenceToken(lex: SentenceCaseLexicon, opt: SentenceCaseOptions, text: string, start: int, i: int, st: ScanState, hasDigit: bool)
    returns (outTok: string, next: ScanState)
    requires 0 <= start < i <= |text| && hasDigit == ContainsDigit(text[start..i])
    ensures (outTok, next) == StartToken(lex, opt, text, start, i, st)
  {
    var token := text[start..i];
    next := st;
    var lower := Lower(token);
    if i < |text| && text[i] == '.' && (IsHonorific(lex, lower) || lex.nonTerminalAbbreviations.Contains(lower)) {
      outTok := UpperFirstLowerRest(token);
      next := next.(prevWasHonorific := IsHonorific(lex, lower), prevHonorificDepth := st.wrapperDepth);
      return;
    }
    var acronym := IsAllCapsAcronym(lex, opt, token);
    if acronym || hasDigit {
      outTok := token;
    } else if FirstApostrophe(token) >= 0 {
      if LooksLikeContractionOrPossessive(token) {
        outTok := UpperFirstLowerRest(token);
      } else {
        outTok := CapTokenWithApostrophes(token);
      }
    } else {
      outTok := UpperFirstLowerRest(token);
    }
  }

  method MidSentenceWord(lex: SentenceCaseLexicon, opt: SentenceCaseOptions, token: string, st: ScanState, hasDigit: bool)
    returns (outTok: string)
    requires hasDigit == ContainsDigit(token)
    ensures outTok == MidWord(lex, opt, token, st)
  {
    if lex.properCaseTokens.Contains(token) {
      outTok := CapTokenWithApostrophes(token);
    } else if lex.brandSuffixes.Contains(token) && (st.prevWasBrand || st.prevHadDigit) {
      outTok := CapTokenWithApostrophes(token);
    } else {
      var acronym := IsAllCapsAcronym(lex, opt, token);
      var camel := IsCamelOrMixedCase(token);
      if (opt.preserveAcronymsMidSentence && acronym) || camel || hasDigit {
        outTok := token;
      } else {
        outTok := Lower(token);
      }
    }
  }

  method DottedInitialCase(lex: SentenceCaseLexicon, text: string, start: int, i: int) returns (outTok: string)
    requires 0 <= start < i < |text|
    ensures outTok == DottedInitial(lex, text[start..i], DottedRun(text, start - 1, i))
  {
    var token := text[start..i];
    var dotted := ScanDottedRun(text, start - 1, i);
    var noDotsLower := TrimDotsToLower(dotted);
    var dottedLower := TrimTrailingDotToLower(dotted);
    var noDotsUpper := TrimDotsToUpper(dotted);
    var preferUpper := lex.upperAcronyms.Contains(noDotsUpper);
    var preferLower := lex.nonTerminalAbbreviations.Contains(noDotsLower) || lex.nonTerminalAbbreviations.Contains(dottedLower);
    if preferUpper {
      outTok := Upper(token);
    } else if preferLower {
      outTok := Lower(token);
    } else {
      outTok := token;
    }
  }

  method MidSentenceRules(lex: SentenceCaseLexicon, opt: SentenceCaseOptions, text: string, start: int, i: int, st: ScanState, hasDigit: bool)
    returns (outTok: string, next: ScanState)
    requires 0 <= start < i <= |text| && hasDigit == ContainsDigit(text[start..i])
    ensures (outTok, next) == MidRules(lex, opt, text, start, i, st)
  {
    var token := text[start..i];
    next := st;
    var lower := Lower(token);
    if i < |text| && text[i] == '.' && (IsHonorific(lex, lower) || lex.nonTerminalAbbreviations.Contains(lower)) {
      outTok := UpperFirstLowerRest(token);
      next := next.(prevWasHonorific := IsHonorific(lex, lower), prevHonorificDepth := next.wrapperDepth);
    } else if |token| == 1 && i < |text| && text[i] == '.' {
      outTok := DottedInitialCase(lex, text, start, i);
    } else {
      outTok := MidSentenceWord(lex, opt, token, next, hasDigit);
    }
  }

  method MidSentenceToken(lex: SentenceCaseLexicon, opt: SentenceCaseOptions, text: string, start: int, i: int, st: ScanState, hasDigit: bool)
    returns (outTok: string, next: ScanState)
    requires 0 <= start < i <= |text| && hasDigit == ContainsDigit(text[start..i])
    ensures (outTok, next) == MidToken(lex, opt, text, start, i, st)
  {
    next := st;
    var handled := false;
    if next.prevWasHonorific {
      if next.wrapperDepth == next.prevHonorificDepth {
        outTok := UpperFirstLowerRest(text[start..i]);
        handled := true;
      }
      next := next.(prevWasHonorific := false);
    }
    if !handled {
      outTok, next := MidSentenceRules(lex, opt, text, start, i, next, hasDigit);
    }
  }

  method ChooseTokenCase(lex: SentenceCaseLexicon, opt: SentenceCaseOptions, text: string, start: int, i: int, st: ScanState, hasDigit: bool)
    returns (outTok: string, next: ScanState)
    requires 0 <= start < i <= |text| && hasDigit == ContainsDigit(text[start..i])
    ensures (outTok, next) == TokenCase(lex, opt, text, start, i, st)
  {
    var token := text[start..i];
    match lex.properCaseMap(token) {
      case Some(mapped) =>
        outTok, next := mapped, st;
      case None =>
        if |token| == 1 && (token[0] == 'i' || token[0] == 'I') {
          outTok, next := "I", st;
        } else if st.atSentenceStart {
          outTok, next := StartOfSentenceToken(lex, opt, text, start, i, st, hasDigit);
        } else {
          outTok, next := MidSentenceToken(lex, opt, text, start, i, st, hasDigit);
        }
    }
  }

  method ConvertToken(lex: SentenceCaseLexicon, opt: SentenceCaseOptions, text: string, start: int, i: int, st: ScanState)
    returns (outTok: string, next: ScanState)
    requires 0 <= start < i <= |text|
    ensures (outTok, next) == TokenStep(lex, opt, text, start, i, st)
  {
    var hasDigit := HasDigit(text[start..i]);
    outTok, next := ChooseTokenCase(lex, opt, text, start, i, st, hasDigit);
    if next.pendingSecondWrapperCap && next.wrapperDepth == 0 {
      next := next.(pendingSecondWrapperCap := false);
    }
    var isBrand := lex.brandTokens.Contains(outTok);
    next := next.(atSentenceStart := false, prevHadDigit := hasDigit, prevWasBrand := isBrand);
  }

  /** Wrapper and quote tracking (the bracket and quote branches of the scan). */
  method TrackWrappers(st: ScanState, c: char) returns (next: ScanState)
    ensures next == WrapperStep(st, c)
  {
    next := st;
    if c == '(' || c == '[' || c == '{' {
      next := next.(wrapperDepth := next.wrapperDepth + 1);
    } else if c == ')' || c == ']' || c == '}' {
      if next.wrapperDepth > 0 { next := next.(wrapperDepth := next.wrapperDepth - 1); }
      if next.wrapperDepth == 0 && next.pendingSecondWrapperCap {
        next := next.(atSentenceStart := true, pendingSecondWrapperCap := false);
      }
    } else if c == '"' {
      next := next.(inDoubleQuote := !next.inDoubleQuote);
      if next.inDoubleQuote {
        next := next.(wrapperDepth := next.wrapperDepth + 1);
      } else if next.wrapperDepth > 0 {
        next := CloseLevel(next);
      }
    } else if c == '\'' {
      next := next.(inSingleQuote := !next.inSingleQuote);
      if next.inSingleQuote {
        next := next.(wrapperDepth := next.wrapperDepth + 1);
      } else if next.wrapperDepth > 0 {
        next := CloseLevel(next);
      }
    }
  }

  /** A closing quote: one level less, and the pending second-wrapper capital fires at depth 0. */
  method CloseLevel(st: ScanState) returns (next: ScanState)
    requires st.wrapperDepth > 0
    ensures next == CloseWrapper(st)
  {
    next := st.(wrapperDepth := st.wrapperDepth - 1);
    if next.wrapperDepth == 0 && next.pendingSecondWrapperCap {
      next := next.(atSentenceStart := true, pendingSecondWrapperCap := false);
    }
  }

  /** The sentence-end test after a terminator: decimal guard, dotted-run lookup, word lookahead. */
  method TrackTerminator(lex: SentenceCaseLexicon, text: string, i: int, st: ScanState) returns (next: ScanState)
    requires 0 <= i < |text|
    ensures next == TerminatorStep(lex, text, i, st)
  {
    next := st;
    if !(i > 0 && i + 1 < |text| && IsDigit(text[i - 1]) && IsDigit(text[i + 1])) {
      var abbreviation := CheckAbbreviation(lex, text, i);
      if !abbreviation {
        var wordAhead := ScanForWord(text, i + 1);
        if wordAhead {
          next := next.(atSentenceStart := true, pendingSecondWrapperCap := true);
        }
      }
    }
  }

  /** The abbreviation test of a terminator: the letters-and-dots run around it, normalised two ways. */
  method CheckAbbreviation(lex: SentenceCaseLexicon, text: string, i: int) returns (abbreviation: bool)
    requires 0 <= i < |text|
    ensures abbreviation == AbbreviationAt(lex, text, i)
  {
    var dotted := ScanDottedRun(text, i - 1, i + 1);
    var normalizedNoDots := TrimDotsToLower(dotted);
    var dottedLower := TrimTrailingDotToLower(dotted);
    abbreviation := lex.nonTerminalAbbreviations.Contains(normalizedNoDots)
                    || lex.nonTerminalAbbreviations.Contains(dottedLower);
  }

  method TrackNonToken(lex: SentenceCaseLexicon, text: string, i: int, st: ScanState) returns (next: ScanState)
    requires 0 <= i < |text|
    ensures next == CharStep(lex, text, i, st)
  {
    var c := text[i];
    next := TrackWrappers(st, c);
    if IsSentenceTerminator(c) {
      next := TrackTerminator(lex, text, i, next);
    } else if c == '\n' {
      next := next.(atSentenceStart := true);
    }
  }

  /** SentenceCaseConverter.Convert. */
  method Convert(lex: SentenceCaseLexicon, opt: SentenceCaseOptions, input: string) returns (out: string)
    ensures out == ToSentenceCase(lex, opt, input)
  {
    if |input| == 0 { return input; }
    var text := NormalizeNewlines(input);
    var sb := "";
    var st := InitialState;
    var i, n := 0, |text|;
    ghost var whole := SentenceFrom(lex, opt, text, 0, InitialState);
    while i < n
      invariant 0 <= i <= n
      invariant sb + SentenceFrom(lex, opt, text, i, st) == whole
      decreases n - i
    {
      var c := text[i];
      if IsLetterOrDigit(c) {
        var start := i;
        i := ScanTokenEnd(text, start);
        ProgressAtToken(lex, opt, text, sb, start, st, whole);
        var outTok;
        outTok, st := ConvertToken(lex, opt, text, start, i, st);
        sb := sb + outTok;
        continue;
      }
      ProgressAtChar(lex, opt, text, sb, i, st, whole);
      sb := sb + [c];
      st := TrackNonToken(lex, text, i, st);
      i := i + 1;
    }
    out := sb;
  }
}
