# TidyText text core in Dafny

TidyText is a desktop text-cleaning tool. This project models the part of it
that transforms and measures text, which the editor calls on the user's
text:

- **Punctuation spacing** (`TextSpacing.FixPunctuationSpacing`). The text is
  scanned once, left to right. Code spans, URLs, `www.` hosts, Windows and
  Unix paths, e-mail addresses, domains, version numbers, decimals, times
  and ratios, ellipses and dotted abbreviations are copied by the scan as
  they are. The final collapse still runs over them (see below). Before
  `.`, `,`, `!`, `?` and `;` (and `:` when the option says so) the spaces
  are removed. After them the closing quotes and brackets are kept, and one
  space is added when a word follows. Then every run of spaces is collapsed
  to one. The model keeps the code's one failure: with the colon option on,
  a colon preceded by nothing but spaces makes the code index an empty
  buffer (`sb[^1]`). The model returns `IndexOutOfRange` for that input, and
  `SpacingFacts.ColonGuardThrowsExactly` characterises exactly when it
  happens.
- **Sentence case** (`SentenceCaseConverter.Convert`). Tokens are scanned
  with a state that tracks the sentence start, wrappers, quotes, honorifics
  and the previous token. Each token goes through the converter's cascade
  of rules: the proper-case map, the pronoun "I", abbreviations and
  honorifics, acronyms, contractions, dotted initials, brands and
  camel-case words.
- **Title case** (`TitleCaseConverter.Convert`). Words are scanned in the
  same way. The first word, the last word and the word after a colon are
  forced to a capital. In a hyphenated compound the first and the last
  segments are forced too; the segments between them are forced only when
  the whole word is, so an interior small word such as "of" is
  lower-cased. Small words are lower-cased elsewhere. Acronyms, single
  letters and camel-case words keep or restore their case.
- **The default lexicons.** Their word lists and comparers are modelled as
  constants.
- **The counters** (`Counter`): words, characters, paragraphs, line breaks
  and sentences.

Each method that scans text is imperative Dafny. Its loop is proved equal
to a pure function of the input. The properties worth knowing are proved
about those functions. The sentence-case cascade therefore appears in both
forms. The methods (`SentenceCase.ConvertToken` and the rule methods it
calls) follow the converter's statements and call the loop methods such as
`IsAllCapsAcronym` and `CapTokenWithApostrophes`. The functions
(`SentenceCase.TokenCase` and the rule functions it calls) are their
specifications: each method ensures it returns its function's value, and the
lemmas reason about the functions, since a lemma cannot call a method. Some behaviours of the code that the model keeps as
written:

- Title case capitalises every letter after an apostrophe, so "don't"
  becomes "Don'T" (`TokenShape.CapApostrophesContraction`).
- The last-word search can land on a quote, so in "x 'it'" no word is
  flagged as last (`TitleCaseFacts.QuotedLastWord`).
- The `,` alternative in the decimal recogniser can never match
  (`SpanShapes.DecimalShape`).
- Punctuation spacing is not idempotent: "a.aa ." becomes "a.aa.", which
  becomes "a. aa." (`SpacingFacts.SpacingNotIdempotent`). In the first pass
  "a.aa" is a domain and is copied whole, and the space before the final
  dot is removed. In the second pass the trailing dot leaves the domain's
  last label empty, so no domain is recognised and the inner dot is spaced
  like sentence punctuation.
- The final collapse of spaces runs over the whole buffer, so it also
  squeezes runs of spaces inside code spans and the other spans the scan
  copies whole: "`a  b`" becomes "`a b`" (`SpacingFacts.CodeSpanSqueezed`).
  A copied span that has no two adjacent spaces and does not start or end
  with a space does come out unchanged (`SpacingFacts.SpanSurvives`).
- The empty text has one line (`CounterFacts.LineBreaksAreLines`).
- A paragraph is a non-blank line (`CounterFacts.ParagraphsAreNonBlankLines`).

Both converters are fixed points of themselves: converting a result again
changes nothing (`TitleCaseStability.TitleCaseStable`,
`SentenceCaseStability.SentenceCaseStable`). This holds when the
proper-case map only re-cases its keys and looks them up ignoring case, and
when the sets consulted on a word's own spelling ignore case: the small
words for title case, the proper tokens and brand suffixes for sentence case.
The default sets do; the map is a parameter (see below), so for it this is a
requirement, not a proved fact.

Characters are Dafny `char`s. Letters and digits are the ASCII ones.
White space is the .NET `char.IsWhiteSpace` list.

## Model

| member | source | states |
|---|---|---|
| Text.ReplaceCr | TextCleaner/Model/TextSpacing.cs:17 | replacing every `\r` keeps the length and maps `\r` to `\n` position by position, leaving every other character alone |
| Text.NormalizedHasNoCr | TextCleaner/Model/TextSpacing.cs:17 | after newline normalisation no `\r` is left, and the result is empty exactly when the input is |
| Text.NormalizeWithoutCr | TextCleaner/Model/Casing/SentenceCaseConverter.cs:294-295 | a text without `\r` is left unchanged by newline normalisation |
| Text.NormalizeIdempotent | TextCleaner/Model/Casing/TitleCaseConverter.cs:163-164 | normalising newlines twice gives the same text as normalising once |
| Text.ReplaceCrLfOne | TextCleaner/Model/TextSpacing.cs:17 | replacing CRLF pairs in two texts without `\r` joined by one CRLF gives the two texts joined by one line feed |
| Text.NormalizeCrLf | TextCleaner/Model/Casing/SentenceCaseConverter.cs:294-295 | newline normalisation turns the one CRLF between two texts without `\r` into a line feed and changes nothing else |
| SpacingSpans.DigitsEnd | TextCleaner/Model/TextSpacing.cs:344-348 | the end of the maximal run of digits from j: all digits up to it, and no digit at it |
| SpacingSpans.TryConsumeDigits | TextCleaner/Model/TextSpacing.cs:344-348 | moves past the maximal digit run and succeeds exactly when at least one digit was consumed |
| SpacingSpans.DigitsMaxEnd | TextCleaner/Model/TextSpacing.cs:349-354 | at most max digits are taken: the run stops at max, at a non-digit or at the end |
| SpacingSpans.TryConsumeDigitsMax | TextCleaner/Model/TextSpacing.cs:349-354 | moves past at most max digits and succeeds exactly when one was consumed |
| SpacingSpans.RunEnd | TextCleaner/Model/TextSpacing.cs:79 | the end of the maximal run of one character from j: the spaces before a word, or the dots of an ellipsis |
| SpacingSpans.SkipSpaces | TextCleaner/Model/TextSpacing.cs:308 | the loop that skips spaces stops at the first character that is not a space |
| SpacingSpans.UrlWalk | TextCleaner/Model/TextSpacing.cs:403-413 | the walk stops at the first white space or at the first digit-dot-letter position, and passes nothing that is either |
| SpacingSpans.HasUnmatchedOpening | TextCleaner/Model/TextSpacing.cs:384-393 | true exactly when the span holds more opening than closing brackets of the pair |
| SpacingSpans.KeepsBalancingCloser | TextCleaner/Model/TextSpacing.cs:421-424 | a trailing `)`, `]` or `}` is kept exactly when its opener is unmatched in the token before it |
| SpacingSpans.UrlTrim | TextCleaner/Model/TextSpacing.cs:416-430 | the trim ends at start, at a character that is not terminal punctuation, or at a balancing closer that is kept |
| SpacingSpans.TrimUrlTail | TextCleaner/Model/TextSpacing.cs:415-430 | the backward trimming loop ends where UrlTrim says |
| SpacingSpans.ScanUrlLikeEnd | TextCleaner/Model/TextSpacing.cs:396-433 | computes the walk followed by the trim; SpanShapes.UrlShape states what the end is |
| SpanShapes.UrlTrimTakesPunct | TextCleaner/Model/TextSpacing.cs:417 | every character that was trimmed off is URL terminal punctuation |
| SpanShapes.UrlShape | TextCleaner/Model/TextSpacing.cs:396-433 | the kept part has no white space and no digit-dot-letter stop; what was cut is terminal punctuation up to the stop; the last kept character is not terminal punctuation unless it is a balancing closer |
| SpacingSpans.SchemeFrom | TextCleaner/Model/TextSpacing.cs:144-152 | the schemes are tried in the code's order: the first one that matches case-insensitively gives a span ending after the scheme |
| SpacingSpans.FirstSchemeSpan | TextCleaner/Model/TextSpacing.cs:144-152 | the loop over the scheme list: found exactly when some scheme matches at i, with the end its first match gives |
| SpacingSpans.StartsWithScheme | TextCleaner/Model/TextSpacing.cs:140-154 | found exactly when one of http://, https://, ftp://, file:// starts at i, ignoring case; the end is the URL end after the scheme |
| SpacingSpans.StartsWithWww | TextCleaner/Model/TextSpacing.cs:156-165 | found exactly when `www.` starts at i, ignoring case; the end is the URL end after it |
| SpacingSpans.TryConsumeWinPath | TextCleaner/Model/TextSpacing.cs:173-182 | a letter, a colon and a slash or backslash start a path that runs to the URL end |
| SpacingSpans.TryConsumeNixPath | TextCleaner/Model/TextSpacing.cs:184-193 | a `/` that is not followed by `/`, a space or a newline starts a path that runs to the URL end |
| SpacingSpans.LabelScan | TextCleaner/Model/TextSpacing.cs:207-216 | the label loop fails on an empty label, otherwise counts the dots and the length of the last label |
| SpacingSpans.ScanLabels | TextCleaner/Model/TextSpacing.cs:207-216 | the imperative label loop agrees with LabelScan, failure included |
| SpacingSpans.LettersOnly | TextCleaner/Model/TextSpacing.cs:222 | true exactly when every character of the slice is a letter |
| SpacingSpans.ScanHost | TextCleaner/Model/TextSpacing.cs:204-223 | the host check agrees with HostEnd; SpanShapes.HostShape states the host's form |
| SpacingSpans.LocalEnd | TextCleaner/Model/TextSpacing.cs:201 | the end of the maximal run of e-mail local-part characters |
| SpacingSpans.TryConsumeEmail | TextCleaner/Model/TextSpacing.cs:195-226 | the e-mail recogniser agrees with EmailSpan |
| SpanShapes.EmailShape | TextCleaner/Model/TextSpacing.cs:195-226 | an e-mail span is local-part characters, an `@`, and a host |
| SpanShapes.HostShape | TextCleaner/Model/TextSpacing.cs:204-223 | a host starts with a letter or digit, has only label characters, no empty label, a dot, and a last label of at least two letters |
| SpacingSpans.TryConsumeDomain | TextCleaner/Model/TextSpacing.cs:228-253 | the domain recogniser agrees with DomainSpan |
| SpanShapes.DomainShape | TextCleaner/Model/TextSpacing.cs:228-253 | a domain span is a host |
| SpacingSpans.VersionTail | TextCleaner/Model/TextSpacing.cs:262-267 | the loop over `.digits` groups ends no earlier than it started, and moves on when it counts a group |
| SpacingSpans.TryConsumeVersion | TextCleaner/Model/TextSpacing.cs:255-270 | the version recogniser agrees with VersionSpan |
| SpanShapes.VersionShape | TextCleaner/Model/TextSpacing.cs:255-270 | a version span is an optional `v`/`V`, then digits separated by single dots, with at least one dot |
| SpacingSpans.Thousands | TextCleaner/Model/TextSpacing.cs:279-282 | the thousands loop stops only where no `,digit` follows |
| SpacingSpans.TryConsumeDecimal | TextCleaner/Model/TextSpacing.cs:272-291 | the decimal recogniser agrees with DecimalSpan |
| SpanShapes.DecimalShape | TextCleaner/Model/TextSpacing.cs:272-291 | a decimal span is digit groups separated by single commas, a dot, and digits; the `,` alternative never matches |
| SpacingSpans.SecondsEnd | TextCleaner/Model/TextSpacing.cs:303-306 | optional seconds take exactly three characters or none |
| SpacingSpans.AmPmEnd | TextCleaner/Model/TextSpacing.cs:308-310 | the optional am/pm suffix never moves the end backwards |
| SpanShapes.AmPmShape | TextCleaner/Model/TextSpacing.cs:308-310 | either nothing is taken, or spaces followed by a/p and m in either case |
| SpacingSpans.TryConsumeTimeOrRatio | TextCleaner/Model/TextSpacing.cs:293-313 | the time recogniser agrees with TimeSpan |
| SpacingSpans.TimeSpanParts | TextCleaner/Model/TextSpacing.cs:297-312 | once hours, a colon and minutes are read, the span ends after the optional seconds and am/pm |
| SpanShapes.TimeShape | TextCleaner/Model/TextSpacing.cs:293-313 | a time span is one or two digits, a colon, one or two digits, then optional seconds and am/pm |
| SpacingSpans.TryConsumeEllipsis | TextCleaner/Model/TextSpacing.cs:315-326 | the ellipsis recogniser agrees with EllipsisSpan |
| SpanShapes.EllipsisShape | TextCleaner/Model/TextSpacing.cs:315-326 | an ellipsis is the character … alone, or a whole run of three or more dots |
| SpacingSpans.DottedRun | TextCleaner/Model/TextSpacing.cs:332-333 | each letter-dot group advances by two |
| SpacingSpans.TryConsumeDottedAbbrev | TextCleaner/Model/TextSpacing.cs:328-336 | the dotted-abbreviation recogniser agrees with DottedAbbrevSpan |
| SpanShapes.DottedAbbrevShape | TextCleaner/Model/TextSpacing.cs:328-336 | a dotted abbreviation is at least two ASCII-letter-dot pairs and nothing else |
| SpacingSpans.FenceScan | TextCleaner/Model/TextSpacing.cs:31 | the fence search stops at a triple backtick or where fewer than three characters remain |
| SpacingSpans.InlineScan | TextCleaner/Model/TextSpacing.cs:39 | the inline search passes no backtick and no newline, and stops at one of them or at the end |
| SpacingSpans.ScanCodeSpan | TextCleaner/Model/TextSpacing.cs:25-43 | the code-span loops agree with CodeSpanEnd |
| SpanShapes.CodeSpanShape | TextCleaner/Model/TextSpacing.cs:25-43 | a fenced span runs to its first closing fence or to the end; an inline span contains no backtick or newline and runs to the closing backtick, a newline or the end |
| SpacingSpans.TryProtectedSpan | TextCleaner/Model/TextSpacing.cs:46-73 | the recognisers are tried in the code's order and the first that matches gives the span |
| TextSpacing.RemoveSpaces | TextCleaner/Model/TextSpacing.cs:94 | the text with its plain spaces deleted: no space is left and nothing is added |
| TextSpacing.TrimEndSpaces | TextCleaner/Model/TextSpacing.cs:94 | removing trailing spaces leaves a prefix that does not end in a space, and only spaces were removed |
| TextSpacing.ClosersEnd | TextCleaner/Model/TextSpacing.cs:114-115 | the closers absorbed after punctuation are the maximal run of closing quotes and brackets |
| TextSpacing.PunctAt | TextCleaner/Model/TextSpacing.cs:89-127 | the punctuation rule always moves the scan forward when it does not fail |
| TextSpacing.StepAt | TextCleaner/Model/TextSpacing.cs:22-132 | one step of the main loop always moves the scan forward when it does not fail |
| TextSpacing.CollapseRunsOfSpaces | TextCleaner/Model/TextSpacing.cs:356-374 | the loop agrees with Collapse, a space right after a space is dropped |
| TextSpacing.SpaceAfterEllipsis | TextCleaner/Model/TextSpacing.cs:79-80 | a space is added exactly when the next character that is not a space is a word character |
| TextSpacing.SpacePunctuation | TextCleaner/Model/TextSpacing.cs:91-127 | the imperative punctuation branch agrees with PunctAt, failure included |
| TextSpacing.ScanOne | TextCleaner/Model/TextSpacing.cs:24-131 | one imperative step agrees with StepAt |
| TextSpacing.ScanStep | TextCleaner/Model/TextSpacing.cs:22-132 | the scan unfolds one step: it fails when the step fails and otherwise continues from the step's result |
| TextSpacing.StepPunct | TextCleaner/Model/TextSpacing.cs:88-92 | unprotected sentence punctuation, or a colon with the option on, takes the punctuation rule |
| TextSpacing.StepPlain | TextCleaner/Model/TextSpacing.cs:129-131 | any other unprotected character is copied and the scan moves by one |
| TextSpacing.FixPunctuationSpacing | TextCleaner/Model/TextSpacing.cs:14-136 | returns the empty text as it is; otherwise normalises newlines, scans, and collapses spaces, or fails at the colon guard |
| SpacingFacts.RemoveSpacesConcat | TextCleaner/Model/TextSpacing.cs:94 | deleting spaces distributes over concatenation |
| SpacingFacts.CollapseKeepsNonSpaces | TextCleaner/Model/TextSpacing.cs:356-374 | collapsing runs deletes only spaces |
| SpacingFacts.CollapseNoDoubleSpace | TextCleaner/Model/TextSpacing.cs:356-374 | after collapsing, no two spaces are adjacent |
| SpacingFacts.CollapseUnchanged | TextCleaner/Model/TextSpacing.cs:356-374 | a text without two adjacent spaces is left unchanged, so collapsing is idempotent |
| SpacingFacts.CollapseLast | TextCleaner/Model/TextSpacing.cs:356-374 | collapsing keeps the last character |
| SpacingFacts.TrimKeepsNonSpaces | TextCleaner/Model/TextSpacing.cs:94 | trimming trailing spaces deletes only spaces |
| SpacingFacts.PunctKeepsNonSpaces | TextCleaner/Model/TextSpacing.cs:89-127 | the punctuation rule, when it does not fail, adds the consumed characters and only spaces |
| SpacingFacts.StepKeepsNonSpaces | TextCleaner/Model/TextSpacing.cs:22-132 | every step, when it does not fail, changes the buffer only by spaces and the consumed characters |
| SpacingFacts.ScanKeepsNonSpaces | TextCleaner/Model/TextSpacing.cs:22-132 | a scan that does not fail produces the input with only spaces added or removed |
| SpacingFacts.FixSpacingShape | TextCleaner/Model/TextSpacing.cs:14-136 | when spacing succeeds the output differs from the normalised input only in spaces, has no two adjacent spaces and no `\r` |
| SpacingFacts.NothingProtectedAt | TextCleaner/Model/TextSpacing.cs:25-86 | no protected span starts at a space or a colon |
| SpacingFacts.SpaceCopied | TextCleaner/Model/TextSpacing.cs:129-131 | a space in the input is copied by the default branch |
| SpacingFacts.PunctThrows | TextCleaner/Model/TextSpacing.cs:94-108 | the punctuation rule fails only at a colon past the start, not before `//`, with nothing left in the trimmed buffer |
| SpacingFacts.StepThrows | TextCleaner/Model/TextSpacing.cs:91-108 | a failing step is the punctuation rule at an unprotected colon with the option on |
| SpacingFacts.LeadingSpacesThenThrow | TextCleaner/Model/TextSpacing.cs:94-108 | with the option on, a text whose first non-space is a colon not before `//` fails after its leading spaces are copied |
| SpacingFacts.ThrowNeedsLeadingSpaces | TextCleaner/Model/TextSpacing.cs:22-132 | a scan can fail only when the colon option is on and the text's first non-space is a colon after at least one space and not before `//` |
| SpacingFacts.ColonGuardThrowsExactly | TextCleaner/Model/TextSpacing.cs:14-136 | spacing fails exactly when the colon option is on and the normalised text starts with one or more spaces then a colon not before `//` |
| SpacingFacts.PunctuationSpacing | TextCleaner/Model/TextSpacing.cs:91-127 | at unprotected sentence punctuation, the spaces before it are removed, the punctuation and its closers are copied, and one space is added exactly when the next character is not white space or punctuation |
| SpacingFacts.ColonSpacing | TextCleaner/Model/TextSpacing.cs:96-127 | with the option on, a colon before `//` and a colon next to a digit are copied raw, the empty-buffer case fails, and any other colon is spaced like punctuation |
| SpacingFacts.NoEmailToEnd | TextCleaner/Model/TextSpacing.cs:195-226 | a run of local-part characters that reaches the end of the text is no e-mail address |
| SpacingFacts.LabelsEndInDot | TextCleaner/Model/TextSpacing.cs:228-253 | over letters and dots up to a final dot, the label loop either meets an empty label or ends with an empty last label |
| SpacingFacts.NoDomainBeforeFinalDot | TextCleaner/Model/TextSpacing.cs:228-253 | no domain starts anywhere in a run of letters and dots that ends the text with a dot |
| SpacingFacts.NoNumberAt | TextCleaner/Model/TextSpacing.cs:255-313 | no version, decimal or time starts at a character that is neither a digit nor `v` |
| SpacingFacts.OneDottedPair | TextCleaner/Model/TextSpacing.cs:328-336 | fewer than two letter-dot pairs make no dotted abbreviation |
| SpacingFacts.DomainFirst | TextCleaner/Model/TextSpacing.cs:228-253 | in "a.aa ." the first protected span is the domain "a.aa" |
| SpacingFacts.InnerDotStep | TextCleaner/Model/TextSpacing.cs:91-127 | an unprotected dot before a letter, after a buffer not ending in a space, is copied with one space after it |
| SpacingFacts.FinalDotStep | TextCleaner/Model/TextSpacing.cs:91-127 | an unprotected final dot removes the spaces before it and gets none after it |
| SpacingFacts.TrimKeepsSettled | TextCleaner/Model/TextSpacing.cs:94 | trimming the buffer's trailing spaces keeps any prefix that does not end in a space |
| SpacingFacts.PunctExtendsTrimmed | TextCleaner/Model/TextSpacing.cs:91-128 | the punctuation rule only appends to the buffer after trimming its trailing spaces |
| SpacingFacts.StepExtendsTrimmed | TextCleaner/Model/TextSpacing.cs:22-132 | each step of the loop only appends to the buffer, after at most trimming its trailing spaces |
| SpacingFacts.ScanKeepsSettled | TextCleaner/Model/TextSpacing.cs:22-132 | a prefix of the buffer that does not end in a space is a prefix of what the scan produces |
| SpacingFacts.CollapsePrefix | TextCleaner/Model/TextSpacing.cs:356-374 | collapsing a prefix gives a prefix of the collapsed text |
| SpacingFacts.CollapseAppend | TextCleaner/Model/TextSpacing.cs:356-374 | a piece that starts with a non-space and has no two adjacent spaces passes the collapse unchanged |
| SpacingFacts.CodeSpanCopied | TextCleaner/Model/TextSpacing.cs:25-42 | at a backtick the step appends the whole code span and continues after it |
| SpacingFacts.ProtectedSpanCopied | TextCleaner/Model/TextSpacing.cs:45-73 | a recognised URL, path, address, host, version or number is appended whole and the scan continues after it |
| SpacingFacts.SpanSurvives | TextCleaner/Model/TextSpacing.cs:22-134 | a span copied whole that has no two adjacent spaces and no space at either end appears unchanged in the result, right after the collapsed text before it |
| SpacingFacts.CodeSpanSurvives | TextCleaner/Model/TextSpacing.cs:25-42 | such a code span appears unchanged in the result |
| SpacingFacts.LeadingCodeSpanKept | TextCleaner/Model/TextSpacing.cs:14-134 | a text that opens with such a code span starts its result with that span |
| SpacingFacts.CodeSpanSqueezed | TextCleaner/Model/TextSpacing.cs:134 | the final collapse also squeezes spaces inside a code span: "`a  b`" becomes "`a b`" |
| SpacingFacts.SpacingNotIdempotent | TextCleaner/Model/TextSpacing.cs:14-136 | spacing is not idempotent: "a.aa ." becomes "a.aa.", and spacing that again gives "a. aa." |
| Counter.CountWords | TextCleaner/Model/Counter.cs:9 | the word count is at most the number of pieces of the split on space, tab, `\n` and `\r`, and is zero exactly when every piece is empty |
| Counter.CountCharacters | TextCleaner/Model/Counter.cs:11 | the character count is the length of the text |
| Counter.CountParagraphs | TextCleaner/Model/Counter.cs:13 | the paragraph count is at most the number of pieces between runs of `\n` |
| Counter.CountLineBreaks | TextCleaner/Model/Counter.cs:15 | there is always at least one line |
| Counter.SplitRuns | TextCleaner/Model/Counter.cs:13 | splitting on runs of a separator always gives at least one piece |
| Counter.NonEmptyCount | TextCleaner/Model/Counter.cs:9 | removing empty entries leaves at most as many pieces, and none exactly when every piece is empty |
| Counter.NonBlankCount | TextCleaner/Model/Counter.cs:13 | no more pieces are non-blank than there are pieces |
| Counter.Split | TextCleaner/Model/Counter.cs:15 | a split always has at least one piece |
| Counter.CountSentences | TextCleaner/Model/Counter.cs:17-27 | the loop counts exactly the non-blank pieces of the sentence split |
| Counter.WhiteEnd | TextCleaner/Model/Counter.cs:19 | the split removes the whole run of white space after a sentence end |
| CounterFacts.LineBreaksAreLines | TextCleaner/Model/Counter.cs:15 | CountLineBreaks is one more than the number of `\n` (so 1 for the empty text); the pieces contain no `\n` and joined with `\n` give the text back |
| CounterFacts.WordsAreWordStarts | TextCleaner/Model/Counter.cs:9 | CountWords is the number of positions where a non-separator follows a separator or the start |
| CounterFacts.WordsBounds | TextCleaner/Model/Counter.cs:9-11 | there are never more words than characters, and there are none exactly when every character is a space, tab, `\n` or `\r` |
| CounterFacts.ParagraphsAreNonBlankLines | TextCleaner/Model/Counter.cs:13-15 | CountParagraphs is the number of non-blank lines, so it is at most CountLineBreaks |
| CounterFacts.NoParagraphsIffBlank | TextCleaner/Model/Counter.cs:13 | there are no paragraphs exactly when the text is white space |
| CounterFacts.PiecesCount | TextCleaner/Model/Counter.cs:19 | the sentence split has one more piece than there are breaks |
| CounterFacts.SentencesBounds | TextCleaner/Model/Counter.cs:17-27 | the sentence count is at most one more than the number of breaks, and is zero exactly when the text is white space |
| CounterFacts.SentencePiecesShape | TextCleaner/Model/Counter.cs:19 | every sentence piece but the last is non-empty and ends in `.`, `!` or `?`, and no piece has a break inside it |
| Chars.ToUpper | TextCleaner/Model/Casing/SentenceCaseConverter.cs:306-307 | upper-casing makes a letter upper case and leaves all but lower-case letters alone |
| Chars.ToLower | TextCleaner/Model/Casing/SentenceCaseConverter.cs:307 | lower-casing makes a letter lower case and leaves all but upper-case letters alone |
| Chars.CaseVariantIsEqualsIgnoreCase | TextCleaner/Model/Casing/DefaultSentenceCaseLexicon.cs:14 | two texts differ only in the case of letters exactly when they are equal ignoring case |
| SentenceCase.TokenEnd | TextCleaner/Model/Casing/SentenceCaseConverter.cs:53-57 | a token is the maximal run of token characters from its first letter or digit |
| SentenceCase.ScanTokenEnd | TextCleaner/Model/Casing/SentenceCaseConverter.cs:53-57 | the token loop stops at the end TokenEnd describes |
| SentenceCase.HasDigit | TextCleaner/Model/Casing/SentenceCaseConverter.cs:297-301 | true exactly when the token contains a digit |
| SentenceCase.IsAllCapsAcronym | TextCleaner/Model/Casing/SentenceCaseConverter.cs:360-396 | true exactly when the token has two or more letters, all upper case, and is whitelisted, or is an unknown short all-caps word that is not a stopword when that option is on |
| SentenceCase.FirstApostrophe | TextCleaner/Model/Casing/SentenceCaseConverter.cs:470-487 | the first apostrophe of the token, or -1 when there is none |
| SentenceCase.UpperFirstLowerRestShape | TextCleaner/Model/Casing/SentenceCaseConverter.cs:303-308 | the first character is upper-cased, every other one lower-cased, and only letters change |
| SentenceCase.TrimDotsToLower | TextCleaner/Model/Casing/SentenceCaseConverter.cs:332-341 | the dotted run with its dots removed, lower-cased |
| SentenceCase.TrimDotsToUpper | TextCleaner/Model/Casing/SentenceCaseConverter.cs:489-498 | the dotted run with its dots removed, upper-cased |
| SentenceCase.TrimTrailingDotToLower | TextCleaner/Model/Casing/SentenceCaseConverter.cs:343-353 | the dotted run with its trailing dots removed, lower-cased |
| SentenceCase.RemoveDots | TextCleaner/Model/Casing/SentenceCaseConverter.cs:332-341 | removing dots leaves no dot and never lengthens the text |
| SentenceCase.RemoveDotsCounts | TextCleaner/Model/Casing/SentenceCaseConverter.cs:332-341 | removing dots keeps every other character exactly as often as it occurs |
| SentenceCase.RemoveDotsLength | TextCleaner/Model/Casing/SentenceCaseConverter.cs:332-341 | removing dots shortens the text by exactly its number of dots |
| SentenceCase.RemoveDotsConcat | TextCleaner/Model/Casing/SentenceCaseConverter.cs:332-341 | removing the dots of a concatenation removes them from each part |
| SentenceCase.RemoveDotsWithoutDots | TextCleaner/Model/Casing/SentenceCaseConverter.cs:332-341 | a text without dots is left unchanged |
| SentenceCase.DropTrailingDots | TextCleaner/Model/Casing/SentenceCaseConverter.cs:343-353 | the result is a prefix that does not end in a dot, and only dots were dropped |
| SentenceCase.DottedKeysHaveNoTrailingDot | TextCleaner/Model/Casing/DefaultSentenceCaseLexicon.cs:14-21 | the keys built from a dotted run never equal the listed "a.i." or "A.I.", so that entry can never match |
| SentenceCase.RunLeft | TextCleaner/Model/Casing/SentenceCaseConverter.cs:144-145 | the left end of the run of letters and dots before the token |
| SentenceCase.RunRight | TextCleaner/Model/Casing/SentenceCaseConverter.cs:146-147 | the right end of the run of letters and dots after the token |
| SentenceCase.ScanDottedRun | TextCleaner/Model/Casing/SentenceCaseConverter.cs:143-149 | the dotted run around a single letter, found by the two loops |
| SentenceCase.ScanForWord | TextCleaner/Model/Casing/SentenceCaseConverter.cs:276-278 | true exactly when something other than white space and wrappers follows the terminator |
| SentenceCase.StartOfSentenceToken | TextCleaner/Model/Casing/SentenceCaseConverter.cs:76-104 | a sentence-start token is cased by the honorific, acronym, digit, apostrophe and capitalise rules in the code's order (what that gives is `SentenceCaseFacts.StartTokenCapitalises`) |
| SentenceCase.MidSentenceWord | TextCleaner/Model/Casing/SentenceCaseConverter.cs:171-192 | the normal mid-sentence flow: proper tokens and brand suffixes capitalised, acronyms, camel-case and digit words kept, others lower-cased |
| SentenceCase.DottedInitialCase | TextCleaner/Model/Casing/SentenceCaseConverter.cs:141-169 | a single letter before a dot is upper-cased in an acronym run, lower-cased in an abbreviation run, and otherwise kept |
| SentenceCase.MidSentenceRules | TextCleaner/Model/Casing/SentenceCaseConverter.cs:126-192 | the mid-sentence honorific, dotted-initial and normal rules in the code's order |
| SentenceCase.MidSentenceToken | TextCleaner/Model/Casing/SentenceCaseConverter.cs:105-193 | the honorific carry-over applies only at its wrapper depth and is then cleared |
| SentenceCase.ChooseTokenCase | TextCleaner/Model/Casing/SentenceCaseConverter.cs:65-193 | the proper-case map, then the pronoun I, then the sentence-start or mid-sentence rules |
| SentenceCase.ConvertToken | TextCleaner/Model/Casing/SentenceCaseConverter.cs:53-204 | the token's output and the state after it (sentence start cleared, digit and brand flags set) |
| SentenceCase.TrackWrappers | TextCleaner/Model/Casing/SentenceCaseConverter.cs:208-252 | brackets and quotes update the wrapper depth, the quote flags and the second-wrapper capital |
| SentenceCase.CloseLevel | TextCleaner/Model/Casing/SentenceCaseConverter.cs:214-224 | closing a wrapper lowers the depth and re-arms the sentence start when one was pending |
| SentenceCase.CheckAbbreviation | TextCleaner/Model/Casing/SentenceCaseConverter.cs:259-271 | true exactly when the dotted run before the terminator is a non-terminal abbreviation |
| SentenceCase.TrackTerminator | TextCleaner/Model/Casing/SentenceCaseConverter.cs:254-281 | a terminator starts a sentence unless it is a decimal point, ends an abbreviation or no word follows |
| SentenceCase.TrackNonToken | TextCleaner/Model/Casing/SentenceCaseConverter.cs:206-285 | the state update for a character outside a token: wrappers, terminators and newlines |
| SentenceCase.SentenceFromAtToken | TextCleaner/Model/Casing/SentenceCaseConverter.cs:49-204 | at a letter or digit the output is the converted token followed by the rest from its end |
| SentenceCase.SentenceFromAtChar | TextCleaner/Model/Casing/SentenceCaseConverter.cs:206-287 | any other character is copied and the state stepped |
| SentenceCase.Convert | TextCleaner/Model/Casing/SentenceCaseConverter.cs:31-291 | the converter's loop produces exactly ToSentenceCase of the input |
| SentenceCaseFacts.SentenceCaseKeepsText | TextCleaner/Model/Casing/SentenceCaseConverter.cs:31-291 | when the proper-case map only re-cases, sentence case changes only the case of letters of the normalised text and copies every other character |
| SentenceCaseFacts.EmptyInputUnchanged | TextCleaner/Model/Casing/SentenceCaseConverter.cs:33 | the empty text is returned as it is |
| SentenceCaseFacts.TokenStepState | TextCleaner/Model/Casing/SentenceCaseConverter.cs:196-204 | after a token the sentence start is off, the wrappers are unchanged and the digit flag records the token |
| SentenceCaseFacts.TokenCaseKeepsWrappers | TextCleaner/Model/Casing/SentenceCaseConverter.cs:65-193 | the casing rules never change the wrapper or quote state |
| SentenceCaseFacts.PronounIsCapital | TextCleaner/Model/Casing/SentenceCaseConverter.cs:72-75 | a lone i or I not in the map becomes "I" |
| SentenceCaseFacts.MapWins | TextCleaner/Model/Casing/SentenceCaseConverter.cs:65-68 | a token in the proper-case map becomes its mapped form, wherever it stands |
| SentenceCaseFacts.HonorificCarryOver | TextCleaner/Model/Casing/SentenceCaseConverter.cs:114-123 | the token after an honorific at the same depth is capitalised and the carry-over is cleared |
| SentenceCaseFacts.TerminatorStartsSentence | TextCleaner/Model/Casing/SentenceCaseConverter.cs:254-281 | after a terminator a sentence starts exactly when one had started or the terminator is not a decimal point or abbreviation and a word follows |
| SentenceCaseFacts.NewlineStartsSentence | TextCleaner/Model/Casing/SentenceCaseConverter.cs:282-285 | a newline starts a sentence and changes nothing else |
| SentenceCaseFacts.ClosingWrapperRearms | TextCleaner/Model/Casing/SentenceCaseConverter.cs:214-251 | closing the last bracket, or the last open double or single quote, with a capital pending starts a sentence |
| SentenceCaseFacts.WrapperStepKeepsDepth | TextCleaner/Model/Casing/SentenceCaseConverter.cs:208-252 | the wrapper depth never goes negative, and characters that are not wrappers leave it alone |
| SentenceCaseFacts.CharStepDepth | TextCleaner/Model/Casing/SentenceCaseConverter.cs:206-285 | only the wrapper rule changes the depth |
| SentenceCaseFacts.DefaultAcronymsAreKept | TextCleaner/Model/Casing/DefaultSentenceCaseLexicon.cs:46-53 | every whitelisted acronym is recognised as an all-caps acronym |
| SentenceCaseFacts.MidWordLowers | TextCleaner/Model/Casing/SentenceCaseConverter.cs:171-192 | a mid-sentence word that no rule keeps is lower-cased |
| SentenceCaseFacts.UnknownCapsAreLowered | TextCleaner/Model/Casing/SentenceCaseConverter.cs:171-192 | with the default lexicon and options an unknown all-caps word such as XYZ is lower-cased mid-sentence |
| SentenceCaseFacts.ContractionExamples | TextCleaner/Model/Casing/SentenceCaseConverter.cs:470-487 | "it's" and "o'clock" look like contractions, "o'neill" does not |
| SentenceCaseFacts.ListedDotIsAbbreviation | TextCleaner/Model/Casing/SentenceCaseConverter.cs:254-271 | a dot whose letters-and-dots run, without dots and in lower case, is a default non-terminal abbreviation is an abbreviation dot and leaves the whole state unchanged |
| SentenceCaseFacts.DotAfterListedWord | TextCleaner/Model/Casing/DefaultSentenceCaseLexicon.cs:14-21 | a dot after any listed lower-case word standing on its own (such as "us", "am", "ai", "un") does not start a sentence, at any position in any text |
| SentenceCaseFacts.WordRun | TextCleaner/Model/Casing/SentenceCaseConverter.cs:259-264 | the run around a dot after a word standing on its own is that word and the dot |
| SentenceCaseFacts.WordRunKey | TextCleaner/Model/Casing/SentenceCaseConverter.cs:259-266 | that run is looked up as the word itself |
| SentenceCaseFacts.RunLeftStops | TextCleaner/Model/Casing/SentenceCaseConverter.cs:260-261 | the leftward scan stops at the first character that is not a letter or a dot |
| SentenceCaseFacts.ObjectPronounIsAnAbbreviation | TextCleaner/Model/Casing/DefaultSentenceCaseLexicon.cs:14-21 | "us" is a non-terminal abbreviation, so the dot in "like us. then" starts no sentence |
| SentenceCaseFacts.HonorificExample | TextCleaner/Model/Casing/SentenceCaseConverter.cs:80-87 | with "dr" as an honorific, "dr. smith" becomes "Dr. Smith" |
| SentenceCaseFacts.StartTokenCapitalises | TextCleaner/Model/Casing/SentenceCaseConverter.cs:76-104 | at a sentence start, an unmapped letter-led token that is not "i", no acronym and has no digit keeps its length, gets a capital first letter and ends the sentence start; a surname with an apostrophe gets a capital after each apostrophe, any other such token is capitalised and lower-cased after its first letter |
| SentenceCaseFacts.SentenceStartExample | TextCleaner/Model/Casing/SentenceCaseConverter.cs:33-290 | for a lexicon that maps none of the words, "hello\r\nworld. ok." becomes "Hello\nWorld. Ok.": the text start, a line feed and a sentence end each start a sentence |
| SentenceCaseFacts.DefaultKnowsPlainWords | TextCleaner/Model/Casing/DefaultSentenceCaseLexicon.cs:14-21 | the default lexicon, with a proper-case map that maps none of "hello", "world" and "ok", meets what the sentence-start example needs: "world" is no non-terminal abbreviation |
| SentenceCaseFacts.XyzLowered | TextCleaner/Model/Casing/SentenceCaseConverter.cs:171-192 | any lexicon that does not list XYZ lower-cases it mid-sentence when unknown short capitals are no acronyms |
| TokenShape.CapTokenWithApostrophes | TextCleaner/Model/Casing/SentenceCaseConverter.cs:310-330 | the loop capitalises the first letter and each letter after an apostrophe, and lower-cases the others |
| TokenShape.CapApostrophesShape | TextCleaner/Model/Casing/TitleCaseConverter.cs:216-236 | the length and the non-letters are kept, and a letter is upper case exactly when it starts the token or follows an apostrophe |
| TokenShape.CapApostrophesSurname | TextCleaner/Model/Casing/TitleCaseConverter.cs:216-236 | "o'neill" becomes "O'Neill" |
| TokenShape.CapApostrophesContraction | TextCleaner/Model/Casing/TitleCaseConverter.cs:216-236 | "don't" becomes "Don'T" |
| TokenShape.CapApostrophesIgnoresCase | TextCleaner/Model/Casing/TitleCaseConverter.cs:216-236 | two re-casings of a token are capitalised alike |
| TokenShape.CapApostrophesIdempotent | TextCleaner/Model/Casing/TitleCaseConverter.cs:216-236 | capitalising a capitalised token changes nothing |
| Lexicon.ContainsIgnoresCase | TextCleaner/Model/Casing/DefaultSentenceCaseLexicon.cs:14-69 | a case-insensitive set answers alike for two re-casings of a word |
| TokenShape.Letters | TextCleaner/Model/Casing/SentenceCaseConverter.cs:425-430 | the letters of the token, in order |
| TokenShape.CountLetterCases | TextCleaner/Model/Casing/SentenceCaseConverter.cs:422-440 | the loop counts the letters, whether there are upper and lower ones, and the case transitions |
| TokenShape.ScanInnerCapital | TextCleaner/Model/Casing/SentenceCaseConverter.cs:447-451 | true exactly when a capital strictly inside the token has a lower-case neighbour |
| TokenShape.ScanLowerThenUpper | TextCleaner/Model/Casing/SentenceCaseConverter.cs:453-467 | true exactly when some lower-case letter comes before some capital |
| TokenShape.IsCamelOrMixedCase | TextCleaner/Model/Casing/TitleCaseConverter.cs:239-280 | the camel/mixed-case test agrees with CamelOrMixed |
| TokenShape.SingleCaseIsNotCamel | TextCleaner/Model/Casing/SentenceCaseConverter.cs:420-468 | a token with letters of only one case is never camel or mixed case |
| TokenShape.AlternatingIsNotCamel | TextCleaner/Model/Casing/SentenceCaseConverter.cs:420-468 | a token whose letters alternate case at every step is not camel or mixed case |
| TokenShape.TitleShapedIsNotCamel | TextCleaner/Model/Casing/SentenceCaseConverter.cs:420-468 | a token with no capital after its first character is not camel or mixed case |
| TokenShape.CamelWord | TextCleaner/Model/Casing/SentenceCaseConverter.cs:420-468 | a word with two same-case neighbours and an inner capital is camel or mixed case |
| TokenShape.CamelPossessive | TextCleaner/Model/Casing/SentenceCaseConverter.cs:420-468 | adding "'s" to such a word keeps it camel or mixed case |
| TokenShape.CamelExamples | TextCleaner/Model/Casing/SentenceCaseConverter.cs:420-468 | "iPhone" and "eBay" are camel or mixed case |
| TokenShape.PossessiveCamelExample | TextCleaner/Model/Casing/SentenceCaseConverter.cs:420-468 | "McDonald's" is camel or mixed case |
| TokenShape.AlternatingExample | TextCleaner/Model/Casing/SentenceCaseConverter.cs:420-468 | "tEsT" is not |
| TokenShape.TitleShapedExample | TextCleaner/Model/Casing/SentenceCaseConverter.cs:420-468 | "Hello" is not |
| TokenShape.SingleCaseExample | TextCleaner/Model/Casing/SentenceCaseConverter.cs:420-468 | "NASA" is not |
| TitleCase.WordEnd | TextCleaner/Model/Casing/TitleCaseConverter.cs:57 | a word is the maximal run of letters, digits, apostrophes and dashes |
| TitleCase.ScanWordEnd | TextCleaner/Model/Casing/TitleCaseConverter.cs:57 | the word loop stops where WordEnd says |
| TitleCase.FirstWordStart | TextCleaner/Model/Casing/TitleCaseConverter.cs:166-171 | the first letter or digit of the text, or -1 when there is none |
| TitleCase.FindFirstWordStart | TextCleaner/Model/Casing/TitleCaseConverter.cs:166-171 | the loop finds FirstWordStart |
| TitleCase.LastAlnum | TextCleaner/Model/Casing/TitleCaseConverter.cs:175-177 | the last letter or digit of the text, or -1 |
| TitleCase.RunStart | TextCleaner/Model/Casing/TitleCaseConverter.cs:179-180 | the start of the run of word characters ending at the last letter or digit |
| TitleCase.FindLastWordStart | TextCleaner/Model/Casing/TitleCaseConverter.cs:173-185 | the two loops find LastWordStart |
| TitleCaseFacts.LastWordShape | TextCleaner/Model/Casing/TitleCaseConverter.cs:173-185 | there is no last word exactly when the text has no letter or digit; no letter or digit follows the last word |
| TitleCaseFacts.QuotedLastWord | TextCleaner/Model/Casing/TitleCaseConverter.cs:173-185 | in "x 'it'" the last word start is the quote, which no word starts at |
| TitleCase.IsAllCapsAcronym | TextCleaner/Model/Casing/TitleCaseConverter.cs:187-214 | true exactly when the token is two or more upper-case letters and whitelisted |
| TitleCaseFacts.AllCapsRuleIsSubsumed | TextCleaner/Model/Casing/TitleCaseConverter.cs:135-146 | the all-caps acronym rule can never fire, because the earlier acronym-restoring rule already returned the same text |
| TitleCase.TryMapAcronym | TextCleaner/Model/Casing/TitleCaseConverter.cs:282-302 | found exactly when the upper-cased segment is a whitelisted acronym, and then that is the result |
| TitleCase.ProcessSingleSegment | TextCleaner/Model/Casing/TitleCaseConverter.cs:127-159 | the segment rules in the code's order |
| TitleCaseFacts.TitleMapWins | TextCleaner/Model/Casing/TitleCaseConverter.cs:131-132 | a segment in the proper-case map becomes its mapped form |
| TitleCaseFacts.AcronymRestored | TextCleaner/Model/Casing/TitleCaseConverter.cs:135-136 | a segment whose upper-case form is a whitelisted acronym becomes that acronym |
| TitleCaseFacts.SingleLetterCapital | TextCleaner/Model/Casing/TitleCaseConverter.cs:139-140 | a single letter becomes upper case when that option is on |
| TitleCaseFacts.SmallWordRule | TextCleaner/Model/Casing/TitleCaseConverter.cs:151-158 | a small word is capitalised when it must be and lower-cased otherwise |
| TitleCaseFacts.OtherWordRule | TextCleaner/Model/Casing/TitleCaseConverter.cs:151-158 | any other word reaching the last rule is capitalised after each apostrophe |
| TitleCaseFacts.SegmentCaseKeepsCase | TextCleaner/Model/Casing/TitleCaseConverter.cs:127-159 | when the map only re-cases, a segment changes only in the case of letters |
| TitleCase.CountSegments | TextCleaner/Model/Casing/TitleCaseConverter.cs:96 | the segment count is one more than the number of dashes |
| TitleCase.SplitDashLength | TextCleaner/Model/Casing/TitleCaseConverter.cs:96-118 | the split at dashes has exactly that many pieces, so the last segment is the last piece |
| TitleCase.ScanToDash | TextCleaner/Model/Casing/TitleCaseConverter.cs:101 | the inner loop stops at the next dash or the end |
| TitleCase.ProcessSegment | TextCleaner/Model/Casing/TitleCaseConverter.cs:104-113 | one segment's output with its forcing |
| TitleCase.ProcessHyphenated | TextCleaner/Model/Casing/TitleCaseConverter.cs:89-120 | the hyphen loop joins, with dashes, the outputs of the segments of the split |
| TitleCase.HyphenFromIsJoin | TextCleaner/Model/Casing/TitleCaseConverter.cs:98-118 | the loop's output from a segment on is the join of the remaining segment outputs |
| TitleCase.ProcessWord | TextCleaner/Model/Casing/TitleCaseConverter.cs:85-125 | a word goes through the hyphen loop when it has a dash and the option is on, and is a single segment otherwise |
| TitleCaseFacts.SegmentForcing | TextCleaner/Model/Casing/TitleCaseConverter.cs:104-113 | a non-empty segment is forced when it is first or last in the compound or the word must be capitalised |
| TitleCaseFacts.EmptySegmentsStayEmpty | TextCleaner/Model/Casing/TitleCaseConverter.cs:112-113 | an empty segment produces nothing |
| TitleCaseFacts.JoinSplitFrom | TextCleaner/Model/Casing/TitleCaseConverter.cs:98-118 | joining the dash split with dashes gives the word back |
| TitleCaseFacts.SplitPartsHaveNoDash | TextCleaner/Model/Casing/TitleCaseConverter.cs:101 | no segment contains a dash |
| TitleCaseFacts.WordCaseKeepsCase | TextCleaner/Model/Casing/TitleCaseConverter.cs:85-125 | a word changes only in the case of its letters |
| TitleCase.TitleFromAtWord | TextCleaner/Model/Casing/TitleCaseConverter.cs:54-68 | at a letter or digit the word is converted, flagged first or last by its start, and the colon force is consumed |
| TitleCase.TitleFromAtChar | TextCleaner/Model/Casing/TitleCaseConverter.cs:70-77 | any other character is copied, and a colon sets the force when the option is on |
| TitleCase.Convert | TextCleaner/Model/Casing/TitleCaseConverter.cs:37-81 | the converter's loop produces exactly ToTitleCase of the input |
| TitleCaseFacts.TitleCaseKeepsText | TextCleaner/Model/Casing/TitleCaseConverter.cs:37-81 | when the map only re-cases, title case changes only the case of letters of the normalised text and copies every other character |
| TitleCaseFacts.EmptyTitleUnchanged | TextCleaner/Model/Casing/TitleCaseConverter.cs:39 | the empty text is returned as it is |
| TitleCaseFacts.ColonForcesNextWord | TextCleaner/Model/Casing/TitleCaseConverter.cs:70-76 | with the option on, the first word after a colon is converted with the force set |
| TitleCaseFacts.NoColonNoForce | TextCleaner/Model/Casing/TitleCaseConverter.cs:63-66 | without a colon in between the next word is not forced |
| TitleCaseFacts.FirstWordIsFlagged | TextCleaner/Model/Casing/TitleCaseConverter.cs:44-63 | the first word of the text is converted as the first word, and what precedes it is copied |
| TitleCaseFacts.DefaultSmallWordExample | TextCleaner/Model/Casing/DefaultTitleCaseLexicon.cs:15-21 | with the default lexicon "of" stays "of" mid-title and becomes "Of" as the first word |
| TitleCaseFacts.DefaultUpperSmallWordExample | TextCleaner/Model/Casing/DefaultTitleCaseLexicon.cs:15-21 | the small-word set ignores case, so "THE" mid-title becomes "the" |
| TitleCaseFacts.DefaultAcronymExample | TextCleaner/Model/Casing/TitleCaseConverter.cs:134-136 | "gpu" becomes "GPU" wherever it stands |
| TitleCaseFacts.DefaultSingleLetterExample | TextCleaner/Model/Casing/TitleCaseConverter.cs:138-140 | "a" mid-title becomes "A": the single-letter rule comes before the small-word rule |
| TitleCaseFacts.DefaultSmallWordsReachTheRule | TextCleaner/Model/Casing/TitleCaseConverter.cs:130-151 | with the default lexicons a small word in one case and not in the map reaches the small-word rule |
| TitleCaseStability.SegmentCaseStable | TextCleaner/Model/Casing/TitleCaseConverter.cs:127-159 | under the stability requirement, the segment rules applied to a segment's own output give it back |
| TitleCaseStability.SplitJoinDash | TextCleaner/Model/Casing/TitleCaseConverter.cs:96-118 | splitting dash-free segments joined with dashes gives the segments back |
| TitleCaseStability.WordCaseStable | TextCleaner/Model/Casing/TitleCaseConverter.cs:85-125 | a word's output, hyphenated or not, is converted to itself |
| TitleCaseStability.FirstWordStartIgnoresCase | TextCleaner/Model/Casing/TitleCaseConverter.cs:166-171 | the first word starts at the same place in any re-casing of the text |
| TitleCaseStability.LastWordStartIgnoresCase | TextCleaner/Model/Casing/TitleCaseConverter.cs:173-185 | so does the last word |
| TitleCaseStability.TitleFromStable | TextCleaner/Model/Casing/TitleCaseConverter.cs:44-81 | the scan of the output, with the same first word, last word and colon force, gives the output back |
| TitleCaseStability.TitleCaseStable | TextCleaner/Model/Casing/TitleCaseConverter.cs:37-81 | title case is a fixed point: converting its result again changes nothing, when the proper-case map only re-cases and ignores case and the small-word set ignores case |
| TitleCaseStability.DefaultTitleCaseStable | TextCleaner/Model/Casing/DefaultTitleCaseLexicon.cs:15 | with the default lexicons only the proper-case map has to meet that requirement |
| SentenceCaseStability.TokenEndIgnoresCase | TextCleaner/Model/Casing/SentenceCaseConverter.cs:53-57 | tokens end at the same place in any re-casing of the text |
| SentenceCaseStability.TokenTestsIgnoreCase | TextCleaner/Model/Casing/SentenceCaseConverter.cs:297-308 | the digit, apostrophe, contraction and pronoun tests and the capitalise rule give the same answer for any re-casing of a token |
| SentenceCaseStability.TerminatorStepIgnoresCase | TextCleaner/Model/Casing/SentenceCaseConverter.cs:254-281 | the decimal, abbreviation and following-word tests of a terminator ignore case |
| SentenceCaseStability.CharStepIgnoresCase | TextCleaner/Model/Casing/SentenceCaseConverter.cs:206-285 | a character outside tokens moves the scanner state alike in any re-casing of the text |
| SentenceCaseStability.StartWordStable | TextCleaner/Model/Casing/SentenceCaseConverter.cs:88-103 | the sentence-start word rule applied to its own output gives it back |
| SentenceCaseStability.MidWordStable | TextCleaner/Model/Casing/SentenceCaseConverter.cs:171-192 | with case-insensitive proper-token and brand-suffix sets, the mid-sentence word rule applied to its own output gives it back |
| SentenceCaseStability.DottedInitialStable | TextCleaner/Model/Casing/SentenceCaseConverter.cs:141-169 | a dotted initial keeps its output when its run is looked up again in any re-casing |
| SentenceCaseStability.StartTokenStable | TextCleaner/Model/Casing/SentenceCaseConverter.cs:76-104 | the sentence-start token rules reproduce their output and their state |
| SentenceCaseStability.MidRulesStable | TextCleaner/Model/Casing/SentenceCaseConverter.cs:126-192 | the mid-sentence rules reproduce their output and their state |
| SentenceCaseStability.MidTokenStable | TextCleaner/Model/Casing/SentenceCaseConverter.cs:105-193 | so does the honorific carry-over |
| SentenceCaseStability.TokenStepStable | TextCleaner/Model/Casing/SentenceCaseConverter.cs:53-204 | a token's output, converted in the same state, gives the same output and the same next state |
| SentenceCaseStability.SentenceFromStable | TextCleaner/Model/Casing/SentenceCaseConverter.cs:49-288 | the scan of the output from any state the first scan passed through gives the output back |
| SentenceCaseStability.SentenceCaseStable | TextCleaner/Model/Casing/SentenceCaseConverter.cs:31-291 | sentence case is a fixed point: converting its result again changes nothing, when the proper-case map only re-cases and ignores case and the proper-token and brand-suffix sets ignore case |
| SentenceCaseStability.DefaultSentenceCaseStable | TextCleaner/Model/Casing/DefaultSentenceCaseLexicon.cs:14-69 | with the default lexicon only the proper-case map has to meet that requirement |
| Lexicon.DefaultSentenceCaseLexicon | TextCleaner/Model/Casing/DefaultSentenceCaseLexicon.cs:14-69 | the abbreviation, proper-token, brand and suffix sets ignore case; the stopword and acronym sets are exact |
| Lexicon.UpperAcronymsAreUpperLetters | TextCleaner/Model/Casing/DefaultSentenceCaseLexicon.cs:46-53 | every whitelisted acronym is two or more upper-case letters |
| Lexicon.AcronymsAndStopwordsDisjoint | TextCleaner/Model/Casing/DefaultSentenceCaseLexicon.cs:23-53 | no stopword is a whitelisted acronym |
| Lexicon.XyzIsNoAcronym | TextCleaner/Model/Casing/DefaultSentenceCaseLexicon.cs:46-53 | "XYZ" is not whitelisted |
| Lexicon.SmallWordsAreShortLowerWords | TextCleaner/Model/Casing/DefaultTitleCaseLexicon.cs:15-21 | every small word is one to three lower-case letters |
| Lexicon.SmallWordsIgnoreCase | TextCleaner/Model/Casing/DefaultTitleCaseLexicon.cs:15 | the small-word set matches "THE" and "vs" |
| Lexicon.SmallWordLookup | TextCleaner/Model/Casing/DefaultTitleCaseLexicon.cs:15-21 | a lower-case word is small exactly when it is listed |
| Lexicon.CommentedVerbs | TextCleaner/Model/Casing/DefaultTitleCaseLexicon.cs:15-21 | "is", "are", "be" and "not" are not small words, but "yet" is, despite the comment naming it |
| Lexicon.SmallWordsAreNotAcronyms | TextCleaner/Model/Casing/DefaultTitleCaseLexicon.cs:15-21 | no small word, upper-cased, is a whitelisted acronym |
| Lexicon.ProtectedAsIsNeverMatches | TextCleaner/Model/Casing/DefaultTitleCaseLexicon.cs:23-27 | the protected set is empty and matches nothing |

## Left out

- Null input: every model takes a non-null string. The code returns a null text as it is.
- Culture: the `CultureInfo` parameters and the culture-sensitive case mappings are not modelled. Case mapping, letters and digits are ASCII. White space is the exact .NET `char.IsWhiteSpace` list.
- SpacingSpans.StartsWithScheme: the case-insensitive comparison is ASCII case folding, not the culture-sensitive comparison `string.Compare` performs.
- Text elements: Dafny `char`s stand for UTF-16 code units, so CountCharacters is the number of code units, as `text.Length` is. Surrogate pairs are not treated specially.
- The proper-case map: its comparer is not known, so it is an arbitrary lookup function. The honorific set is optional because it is read null-conditionally. The default lexicon populates neither, so both are parameters of `Lexicon.DefaultSentenceCaseLexicon`.
- Regular expressions: the counters' regular-expression splits are replaced by explicit split functions that do the same splitting (`Counter.SplitRuns`, `Counter.PiecesFrom`). The regular-expression engine is not modelled.
- `spaceAfterColon`: FixPunctuationSpacing's parameter is accepted and ignored, as in the code.
- `ScanUntilSpace`: TextSpacing's unused helper is not modelled.
- `LooksLikeSimpleTitleCase`: the sentence-case converter's unused helper is not modelled.
- The user interface, the view model, `Cleaner`, the services and the converters' constructors (argument checks and default options) are outside this model.
- The scheme, `www.` and path recognisers have no shape lemma of their own. Their span is the URL end, which SpanShapes.UrlShape describes.
