/**
 * FixPunctuationSpacing: one left-to-right scan over the text with unified
 * newlines. At each position the scan first tries to copy a protected span
 * unchanged (code, URL, path, e-mail, domain, version, decimal, time,
 * ellipsis, dotted abbreviation); otherwise sentence punctuation (and ':'
 * when asked) loses the spaces before it, absorbs closing quotes and
 * brackets, and gains one space after it; every other character is copied.
 * Runs of spaces are collapsed at the end.
 *
 * ScanFrom is the scan as a function of the position and the buffer built
 * so far; FixPunctuationSpacing is the loop, proved equal to it.
 */
module TextSpacing {
  import opened Chars
  import opened Text
  import opened Wrappers
  import opened SpacingSpans

  /** The outcome of FixPunctuationSpacing: the spaced text, or the IndexOutOfRangeException of the colon guard. */
  datatype Spacing = Spaced(text: string) | IndexOutOfRange

  /** One pass of the loop body: the next position and the new buffer, or the exception. */
  datatype Step = Next(next: int, buf: string) | Crash

  // ---------------------------------------------------------------- spaces

  predicate AllSpaces(s: string) { forall k :: 0 <= k < |s| ==> s[k] == ' ' }

  predicate NoDoubleSpace(s: string) { forall k :: 0 <= k < |s| - 1 ==> !(s[k] == ' ' && s[k + 1] == ' ') }

  /** The text with every plain space deleted. */
  function RemoveSpaces(s: string): (r: string)
    ensures |r| <= |s| && ' ' !in r
  {
    if |s| == 0 then [] else RemoveSpaces(s[..|s| - 1]) + (if s[|s| - 1] == ' ' then [] else [s[|s| - 1]])
  }

  /** while (sb.Length > 0 && sb[^1] == ' ') sb.Length--; */
  function TrimEndSpaces(sb: string): (r: string)
    ensures |r| <= |sb| && r == sb[..|r|] && (forall k :: |r| <= k < |sb| ==> sb[k] == ' ')
    ensures r == [] || r[|r| - 1] != ' '
    decreases |sb|
  {
    if |sb| > 0 && sb[|sb| - 1] == ' ' then TrimEndSpaces(sb[..|sb| - 1]) else sb
  }

  // ---------------------------------------------------------------- one step of the scan

  /** The next character after which no space is added: white space of the three kinds, or sentence punctuation. */
  predicate NoSpaceBefore(c: char) { c == ' ' || c == '\n' || c == '\t' || IsSentencePunct(c) }

  /** The end of the run of closing quotes and brackets starting at j. */
  function ClosersEnd(s: string, j: int): (r: int)
    requires 0 <= j <= |s|
    ensures j <= r <= |s| && (forall k :: j <= k < r ==> IsClosing(s[k]))
    ensures r == |s| || !IsClosing(s[r])
    decreases |s| - j
  {
    if j < |s| && IsClosing(s[j]) then ClosersEnd(s, j + 1) else j
  }

  /** The space the punctuation rule adds before s[j]: one, unless the text ends or s[j] needs none. */
  function SpaceAfter(s: string, j: int): string
    requires 0 <= j <= |s|
  {
    if j < |s| && !NoSpaceBefore(s[j]) then " " else ""
  }

  /** The punctuation rule for s[i]: sentence punctuation, or ':' when colons count as sentence punctuation. */
  function PunctAt(s: string, i: int, sb: string): (r: Step)
    requires 0 <= i < |s|
    ensures r.Next? ==> i < r.next <= |s|
  {
    var t := TrimEndSpaces(sb);
    if s[i] == ':' && i + 2 < |s| && s[i + 1] == '/' && s[i + 2] == '/' then Next(i + 1, t + [':'])
    else if s[i] == ':' && i > 0 && t == [] then Crash
    else if s[i] == ':' && ((i > 0 && IsDigit(t[|t| - 1])) || (i + 1 < |s| && IsDigit(s[i + 1]))) then Next(i + 1, t + [':'])
    else
      var j := ClosersEnd(s, i + 1);
      Next(j, t + s[i..j] + SpaceAfter(s, j))
  }

  /** After an ellipsis: is the next character that is not a space a word character? */
  predicate WordAfterSpaces(s: string, e: int)
    requires 0 <= e <= |s|
  {
    var k := RunEnd(s, e, ' ');
    k < |s| && IsWordChar(s[k])
  }

  /** A step for spans copied as they are. */
  function CopyTo(s: string, i: int, e: int, sb: string): (r: Step)
    requires 0 <= i < e <= |s|
    ensures r.Next? && r.next == e
  {
    Next(e, sb + s[i..e])
  }

  /** One pass of the loop body at position i, with buffer sb. */
  function StepAt(opt: bool, s: string, i: int, sb: string): (r: Step)
    requires 0 <= i < |s|
    ensures r.Next? ==> i < r.next <= |s|
  {
    if s[i] == '`' then CopyTo(s, i, CodeSpanEnd(s, i), sb)
    else match ProtectedSpan(s, i)
      case Some(e) => CopyTo(s, i, e, sb)
      case None =>
        match EllipsisSpan(s, i)
        case Some(e) => Next(e, sb + s[i..e] + (if WordAfterSpaces(s, e) then " " else ""))
        case None =>
          match DottedAbbrevSpan(s, i)
          case Some(e) => CopyTo(s, i, e, sb)
          case None =>
            if IsSentencePunct(s[i]) || (opt && s[i] == ':') then PunctAt(s, i, sb)
            else Next(i + 1, sb + [s[i]])
  }

  /** The scan from position i, with sb built so far. */
  function ScanFrom(opt: bool, s: string, i: int, sb: string): Spacing
    requires 0 <= i <= |s|
    decreases |s| - i
  {
    if i == |s| then Spaced(sb)
    else match StepAt(opt, s, i, sb)
      case Crash => IndexOutOfRange
      case Next(j, b) => ScanFrom(opt, s, j, b)
  }

  /** CollapseRunsOfSpaces: a space right after a space is dropped. */
  function Collapse(s: string): string
  {
    if |s| == 0 then []
    else if s[|s| - 1] == ' ' && |s| >= 2 && s[|s| - 2] == ' ' then Collapse(s[..|s| - 1])
    else Collapse(s[..|s| - 1]) + [s[|s| - 1]]
  }

  /** FixPunctuationSpacing(input, treatColonAsSentencePunct); the empty text is returned as it is. */
  function FixSpacing(input: string, treatColonAsSentencePunct: bool): Spacing
  {
    if |input| == 0 then Spaced(input)
    else match ScanFrom(treatColonAsSentencePunct, NormalizeNewlines(input), 0, [])
      case Spaced(b) => Spaced(Collapse(b))
      case IndexOutOfRange => IndexOutOfRange
  }

  // ---------------------------------------------------------------- the methods

  method CollapseRunsOfSpaces(s: string) returns (r: string)
    ensures r == Collapse(s)
  {
    r := "";
    var prevSpace := false;
    for i := 0 to |s|
      invariant r == Collapse(s[..i])
      invariant prevSpace == (i > 0 && s[i - 1] == ' ')
    {
      assert s[..i + 1][..i] == s[..i];
      var c := s[i];
      if c == ' ' {
        if !prevSpace {
          r := r + [c];
          prevSpace := true;
        }
      } else {
        r := r + [c];
        prevSpace := false;
      }
    }
    assert s[..|s|] == s;
  }

  /** The look-ahead after an ellipsis. */
  method SpaceAfterEllipsis(s: string, end: int) returns (space: bool)
    requires 0 <= end <= |s|
    ensures space == WordAfterSpaces(s, end)
  {
    var k := SkipSpaces(s, end);
    space := k < |s| && IsWordChar(s[k]);
  }

  /** Step 6 of the loop body, for a character the punctuation rule applies to. */
  method SpacePunctuation(s: string, i: int, sb0: string) returns (crash: bool, next: int, sb: string)
    requires 0 <= i < |s|
    ensures PunctAt(s, i, sb0) == if crash then Crash else Next(next, sb)
  {
    var n := |s|;
    sb := sb0;
    while |sb| > 0 && sb[|sb| - 1] == ' '
      invariant TrimEndSpaces(sb) == TrimEndSpaces(sb0)
    {
      sb := sb[..|sb| - 1];
    }
    var c := s[i];
    if c == ':' {
      if i + 2 < n && s[i + 1] == '/' && s[i + 2] == '/' {
        return false, i + 1, sb + [':'];
      }
      if i > 0 {
        if |sb| == 0 {
          // sb[^1] on an empty builder
          return true, i, sb;
        }
        if IsDigit(sb[|sb| - 1]) {
          return false, i + 1, sb + [':'];
        }
      }
      if i + 1 < n && IsDigit(s[i + 1]) {
        return false, i + 1, sb + [':'];
      }
    }
    ghost var t := sb;
    sb := sb + [c];
    var j := i + 1;
    while j < n && IsClosing(s[j])
      invariant i + 1 <= j <= n
      invariant ClosersEnd(s, j) == ClosersEnd(s, i + 1)
      invariant sb == t + s[i..j]
    {
      assert s[i..j + 1] == s[i..j] + [s[j]];
      sb := sb + [s[j]];
      j := j + 1;
    }
    if j < n {
      var nx := s[j];
      if nx != ' ' && nx != '\n' && nx != '\t' && !IsSentencePunct(nx) {
        sb := sb + " ";
      }
    }
    return false, j, sb;
  }

  lemma ScanStep(opt: bool, s: string, i: int, sb: string)
    requires 0 <= i < |s|
    ensures ScanFrom(opt, s, i, sb) == match StepAt(opt, s, i, sb)
      case Crash => IndexOutOfRange
      case Next(j, b) => ScanFrom(opt, s, j, b)
  {
  }

  /** Where no span is protected at i. */
  predicate Unprotected(s: string, i: int)
    requires 0 <= i < |s|
  {
    s[i] != '`' && ProtectedSpan(s, i).None? && EllipsisSpan(s, i).None? && DottedAbbrevSpan(s, i).None?
  }

  lemma StepPunct(opt: bool, s: string, i: int, sb: string)
    requires 0 <= i < |s| && Unprotected(s, i) && (IsSentencePunct(s[i]) || (opt && s[i] == ':'))
    ensures StepAt(opt, s, i, sb) == PunctAt(s, i, sb)
  {
  }

  lemma StepPlain(opt: bool, s: string, i: int, sb: string)
    requires 0 <= i < |s| && Unprotected(s, i) && !(IsSentencePunct(s[i]) || (opt && s[i] == ':'))
    ensures StepAt(opt, s, i, sb) == Next(i + 1, sb + [s[i]])
  {
  }

  /** The body of the loop of FixPunctuationSpacing: one position, steps 1 to 6 and the default copy. */
  method ScanOne(opt: bool, s: string, i: int, sb0: string) returns (crash: bool, next: int, sb: string)
    requires 0 <= i < |s|
    ensures StepAt(opt, s, i, sb0) == if crash then Crash else Next(next, sb)
  {
    crash := false;
    if s[i] == '`' {
      next := ScanCodeSpan(s, i);
      sb := sb0 + s[i..next];
      return;
    }
    var found, end := TryProtectedSpan(s, i);
    if found {
      return false, end, sb0 + s[i..end];
    }
    found, end := TryConsumeEllipsis(s, i);
    if found {
      sb := sb0 + s[i..end];
      var space := SpaceAfterEllipsis(s, end);
      if space {
        sb := sb + " ";
      }
      return false, end, sb;
    }
    found, end := TryConsumeDottedAbbrev(s, i);
    if found {
      return false, end, sb0 + s[i..end];
    }
    var c := s[i];
    var isColon := c == ':';
    if IsSentencePunct(c) || (opt && isColon) {
      StepPunct(opt, s, i, sb0);
      crash, next, sb := SpacePunctuation(s, i, sb0);
      return;
    }
    StepPlain(opt, s, i, sb0);
    return false, i + 1, sb0 + [c];
  }

  /** spaceAfterColon is accepted and not used, as in the engine. */
  method FixPunctuationSpacing(input: string, treatColonAsSentencePunct: bool, spaceAfterColon: bool) returns (r: Spacing)
    ensures r == FixSpacing(input, treatColonAsSentencePunct)
  {
    if |input| == 0 {
      return Spaced(input);
    }
    var s := NormalizeNewlines(input);
    var opt := treatColonAsSentencePunct;
    var sb := "";
    var i, n := 0, |s|;
    ghost var whole := ScanFrom(opt, s, 0, sb);
    while i < n
      invariant 0 <= i <= n
      invariant ScanFrom(opt, s, i, sb) == whole
      decreases n - i
    {
      ScanStep(opt, s, i, sb);
      var crash, next, buf := ScanOne(opt, s, i, sb);
      if crash {
        return IndexOutOfRange;
      }
      sb, i := buf, next;
    }
    var collapsed := CollapseRunsOfSpaces(sb);
    return Spaced(collapsed);
  }
}
