/**
 * What FixPunctuationSpacing promises about its result: only plain spaces
 * are added or removed, no two spaces are left side by side, no carriage
 * return survives; the exact inputs on which the colon guard throws; and
 * the spacing rule for punctuation and for colons.
 */
module SpacingFacts {
  import opened Chars
  import opened Text
  import opened Wrappers
  import opened SpacingSpans
  import opened TextSpacing

  // ---------------------------------------------------------------- removing spaces

  lemma {:induction false} RemoveSpacesConcat(a: string, b: string)
    ensures RemoveSpaces(a + b) == RemoveSpaces(a) + RemoveSpaces(b)
    decreases |b|
  {
    if |b| == 0 {
      assert a + b == a;
    } else {
      assert (a + b)[..|a + b| - 1] == a + b[..|b| - 1];
      RemoveSpacesConcat(a, b[..|b| - 1]);
    }
  }

  lemma {:induction false} RemoveAllSpaces(s: string)
    requires forall k :: 0 <= k < |s| ==> s[k] == ' '
    ensures RemoveSpaces(s) == []
    decreases |s|
  {
    if |s| > 0 {
      RemoveAllSpaces(s[..|s| - 1]);
    }
  }

  /** Only a text made of spaces loses everything. */
  lemma {:induction false} NothingLeftMeansSpaces(s: string)
    requires RemoveSpaces(s) == []
    ensures forall k :: 0 <= k < |s| ==> s[k] == ' '
    decreases |s|
  {
    if |s| > 0 {
      NothingLeftMeansSpaces(s[..|s| - 1]);
      assert forall k :: 0 <= k < |s| - 1 ==> s[k] == s[..|s| - 1][k];
    }
  }

  /** A character other than a space occurs in a text exactly when it occurs in the text without spaces. */
  lemma {:induction false} NonSpaceKept(s: string, c: char)
    requires c != ' '
    ensures c in s <==> c in RemoveSpaces(s)
    decreases |s|
  {
    if |s| > 0 {
      var p := s[..|s| - 1];
      NonSpaceKept(p, c);
      Snoc(s);
    }
  }

  lemma TrimKeepsNonSpaces(sb: string)
    ensures RemoveSpaces(TrimEndSpaces(sb)) == RemoveSpaces(sb)
  {
    var t := TrimEndSpaces(sb);
    assert sb == t + sb[|t|..];
    RemoveSpacesConcat(t, sb[|t|..]);
    RemoveAllSpaces(sb[|t|..]);
  }

  lemma SpaceOrNothing(s: string)
    requires s == "" || s == " "
    ensures RemoveSpaces(s) == []
  {
    if s == " " {
      assert s[..0] == [];
    }
  }

  lemma ColonKeepsNonSpaces(s: string, i: int, t: string)
    requires 0 <= i < |s| && s[i] == ':'
    ensures RemoveSpaces(t + [':']) == RemoveSpaces(t) + RemoveSpaces(s[i..i + 1])
  {
    assert s[i..i + 1] == [':'];
    RemoveSpacesConcat(t, [':']);
  }

  lemma SpacedKeepsNonSpaces(t: string, span: string, sp: string)
    requires sp == "" || sp == " "
    ensures RemoveSpaces(t + span + sp) == RemoveSpaces(t) + RemoveSpaces(span)
  {
    RemoveSpacesConcat(t + span, sp);
    RemoveSpacesConcat(t, span);
    SpaceOrNothing(sp);
  }

  lemma PunctKeepsNonSpaces(s: string, i: int, sb: string)
    requires 0 <= i < |s|
    ensures match PunctAt(s, i, sb)
      case Crash => true
      case Next(j, b) => RemoveSpaces(b) == RemoveSpaces(sb) + RemoveSpaces(s[i..j])
  {
    var t := TrimEndSpaces(sb);
    TrimKeepsNonSpaces(sb);
    if s[i] == ':' && i + 2 < |s| && s[i + 1] == '/' && s[i + 2] == '/' {
      assert PunctAt(s, i, sb) == Next(i + 1, t + [':']);
      ColonKeepsNonSpaces(s, i, t);
    } else if s[i] == ':' && i > 0 && t == [] {
    } else if s[i] == ':' && ((i > 0 && IsDigit(t[|t| - 1])) || (i + 1 < |s| && IsDigit(s[i + 1]))) {
      assert PunctAt(s, i, sb) == Next(i + 1, t + [':']);
      ColonKeepsNonSpaces(s, i, t);
    } else {
      var j := ClosersEnd(s, i + 1);
      assert PunctAt(s, i, sb) == Next(j, t + s[i..j] + SpaceAfter(s, j));
      SpacedKeepsNonSpaces(t, s[i..j], SpaceAfter(s, j));
    }
  }

  /** One step of the scan deletes or adds spaces and nothing else. */
  lemma StepKeepsNonSpaces(opt: bool, s: string, i: int, sb: string)
    requires 0 <= i < |s|
    ensures match StepAt(opt, s, i, sb)
      case Crash => true
      case Next(j, b) => RemoveSpaces(b) == RemoveSpaces(sb) + RemoveSpaces(s[i..j])
  {
    match StepAt(opt, s, i, sb)
    case Crash =>
    case Next(j, b) =>
      if Unprotected(s, i) {
        if IsSentencePunct(s[i]) || (opt && s[i] == ':') {
          StepPunct(opt, s, i, sb);
          PunctKeepsNonSpaces(s, i, sb);
        } else {
          StepPlain(opt, s, i, sb);
          assert s[i..j] == [s[i]];
          RemoveSpacesConcat(sb, [s[i]]);
        }
      } else if s[i] != '`' && ProtectedSpan(s, i).None? && EllipsisSpan(s, i).Some? {
        var sp := if WordAfterSpaces(s, j) then " " else "";
        assert b == sb + s[i..j] + sp;
        RemoveSpacesConcat(sb + s[i..j], sp);
        RemoveSpacesConcat(sb, s[i..j]);
        SpaceOrNothing(sp);
      } else {
        assert b == sb + s[i..j];
        RemoveSpacesConcat(sb, s[i..j]);
      }
  }

  lemma NonSpacesChain(s: string, i: int, j: int, sb: string, b: string, out: string)
    requires 0 <= i <= j <= |s|
    requires RemoveSpaces(b) == RemoveSpaces(sb) + RemoveSpaces(s[i..j])
    requires RemoveSpaces(out) == RemoveSpaces(b) + RemoveSpaces(s[j..])
    ensures RemoveSpaces(out) == RemoveSpaces(sb) + RemoveSpaces(s[i..])
  {
    SliceSplit(s, i, j);
    RemoveSpacesConcat(s[i..j], s[j..]);
    Assoc(RemoveSpaces(sb), RemoveSpaces(s[i..j]), RemoveSpaces(s[j..]));
  }

  lemma Assoc(a: string, b: string, c: string)
    ensures a + b + c == a + (b + c)
  {
  }

  /** The whole scan deletes or adds spaces and nothing else. */
  lemma {:induction false} ScanKeepsNonSpaces(opt: bool, s: string, i: int, sb: string)
    requires 0 <= i <= |s| && ScanFrom(opt, s, i, sb).Spaced?
    ensures RemoveSpaces(ScanFrom(opt, s, i, sb).text) == RemoveSpaces(sb) + RemoveSpaces(s[i..])
    decreases |s| - i
  {
    if i == |s| {
      assert s[i..] == [];
    } else {
      var st := StepAt(opt, s, i, sb);
      ScanStep(opt, s, i, sb);
      StepKeepsNonSpaces(opt, s, i, sb);
      ScanKeepsNonSpaces(opt, s, st.next, st.buf);
      NonSpacesChain(s, i, st.next, sb, st.buf, ScanFrom(opt, s, i, sb).text);
    }
  }

  // ---------------------------------------------------------------- collapsing runs of spaces

  lemma {:induction false} CollapseKeepsNonSpaces(s: string)
    ensures RemoveSpaces(Collapse(s)) == RemoveSpaces(s)
    decreases |s|
  {
    if |s| > 0 {
      var p := s[..|s| - 1];
      CollapseKeepsNonSpaces(p);
      if !(s[|s| - 1] == ' ' && |s| >= 2 && s[|s| - 2] == ' ') {
        RemoveSpacesConcat(Collapse(p), [s[|s| - 1]]);
        assert [s[|s| - 1]][..0] == [];
      }
    }
  }

  /** Collapsing keeps the last character. */
  lemma {:induction false} CollapseLast(s: string)
    requires |s| > 0
    ensures |Collapse(s)| > 0 && Collapse(s)[|Collapse(s)| - 1] == s[|s| - 1]
    decreases |s|
  {
    if s[|s| - 1] == ' ' && |s| >= 2 && s[|s| - 2] == ' ' {
      CollapseLast(s[..|s| - 1]);
    }
  }

  lemma {:induction false} CollapseNoDoubleSpace(s: string)
    ensures NoDoubleSpace(Collapse(s))
    decreases |s|
  {
    if |s| > 0 {
      var p := s[..|s| - 1];
      CollapseNoDoubleSpace(p);
      if !(s[|s| - 1] == ' ' && |s| >= 2 && s[|s| - 2] == ' ') && |p| > 0 {
        CollapseLast(p);
      }
    }
  }

  /** A text with no two spaces side by side is left as it is. */
  lemma {:induction false} CollapseUnchanged(s: string)
    requires NoDoubleSpace(s)
    ensures Collapse(s) == s
    decreases |s|
  {
    if |s| > 0 {
      var p := s[..|s| - 1];
      assert NoDoubleSpace(p) by {
        assert forall k :: 0 <= k < |p| ==> p[k] == s[k];
      }
      CollapseUnchanged(p);
      Snoc(s);
    }
  }

  // ---------------------------------------------------------------- the result

  /**
   * The spaced text differs from the text with unified newlines only in
   * plain spaces, has no two spaces side by side and no carriage return.
   */
  lemma FixSpacingShape(input: string, treatColonAsSentencePunct: bool)
    requires FixSpacing(input, treatColonAsSentencePunct).Spaced?
    ensures var out := FixSpacing(input, treatColonAsSentencePunct).text;
      RemoveSpaces(out) == RemoveSpaces(NormalizeNewlines(input)) && NoDoubleSpace(out) && '\r' !in out
  {
    var s := NormalizeNewlines(input);
    var out := FixSpacing(input, treatColonAsSentencePunct).text;
    if |input| > 0 {
      var b := ScanFrom(treatColonAsSentencePunct, s, 0, []).text;
      ScanKeepsNonSpaces(treatColonAsSentencePunct, s, 0, []);
      assert s[0..] == s;
      CollapseKeepsNonSpaces(b);
      CollapseNoDoubleSpace(b);
      NormalizedHasNoCr(input);
      NonSpaceKept(s, '\r');
      NonSpaceKept(out, '\r');
    }
  }

  // ---------------------------------------------------------------- the colon guard exception

  /**
   * The inputs on which the colon guard reads sb[^1] of an empty buffer:
   * one or more spaces, then a colon not followed by "//".
   */
  predicate ColonGuardThrows(s: string)
  {
    var p := RunEnd(s, 0, ' ');
    0 < p < |s| && s[p] == ':' && !(p + 2 < |s| && s[p + 1] == '/' && s[p + 2] == '/')
  }

  lemma NoPrefixAt(s: string, i: int, p: string)
    requires 0 <= i < |s| && |p| > 0 && ToLower(s[i]) != ToLower(p[0])
    ensures !PrefixAt(s, i, p)
  {
    if i + |p| <= |s| {
      assert s[i..i + |p|][0] == s[i];
    }
  }

  lemma {:induction false} NoSchemeFrom(s: string, i: int, k: int)
    requires 0 <= i < |s| && (s[i] == ' ' || s[i] == ':') && 0 <= k <= |Schemes|
    ensures SchemeFrom(s, i, Schemes, k).None?
    decreases |Schemes| - k
  {
    SchemesAreLong();
    if k < |Schemes| {
      assert Schemes[k][0] == 'h' || Schemes[k][0] == 'f';
      NoPrefixAt(s, i, Schemes[k]);
      NoSchemeFrom(s, i, k + 1);
    }
  }

  lemma NoWwwAt(s: string, i: int)
    requires 0 <= i < |s| && (s[i] == ' ' || s[i] == ':')
    ensures WwwSpan(s, i).None?
  {
    NoPrefixAt(s, i, "www.");
  }

  /** No span is protected at a space or a colon. */
  lemma NothingProtectedAt(s: string, i: int)
    requires 0 <= i < |s| && (s[i] == ' ' || s[i] == ':')
    ensures Unprotected(s, i)
  {
    NoSchemeFrom(s, i, 0);
    NoWwwAt(s, i);
    assert WinPathSpan(s, i).None? && NixPathSpan(s, i).None?;
    assert EmailSpan(s, i).None? && DomainSpan(s, i).None?;
    assert VersionSpan(s, i).None? && DecimalSpan(s, i).None? && TimeSpan(s, i).None?;
  }

  lemma SpaceCopied(opt: bool, s: string, i: int, sb: string)
    requires 0 <= i < |s| && s[i] == ' '
    ensures StepAt(opt, s, i, sb) == Next(i + 1, sb + [' '])
  {
    NothingProtectedAt(s, i);
    StepPlain(opt, s, i, sb);
  }

  lemma {:induction false} TrimAllSpaces(sb: string)
    requires forall k :: 0 <= k < |sb| ==> sb[k] == ' '
    ensures TrimEndSpaces(sb) == []
    decreases |sb|
  {
    if |sb| > 0 {
      TrimAllSpaces(sb[..|sb| - 1]);
    }
  }

  lemma {:induction false} LeadingSpacesThenThrow(opt: bool, s: string, i: int, sb: string)
    requires opt && ColonGuardThrows(s) && 0 <= i <= RunEnd(s, 0, ' ')
    requires |sb| == i && forall k :: 0 <= k < |sb| ==> sb[k] == ' '
    ensures ScanFrom(opt, s, i, sb) == IndexOutOfRange
    decreases |s| - i
  {
    var p := RunEnd(s, 0, ' ');
    if i < p {
      SpaceCopied(opt, s, i, sb);
      LeadingSpacesThenThrow(opt, s, i + 1, sb + [' ']);
    } else {
      NothingProtectedAt(s, i);
      StepPunct(opt, s, i, sb);
      TrimAllSpaces(sb);
    }
  }

  lemma PunctThrows(s: string, i: int, sb: string)
    requires 0 <= i < |s| && PunctAt(s, i, sb).Crash?
    ensures s[i] == ':' && i > 0 && TrimEndSpaces(sb) == [] && !(i + 2 < |s| && s[i + 1] == '/' && s[i + 2] == '/')
  {
  }

  lemma StepThrows(opt: bool, s: string, i: int, sb: string)
    requires 0 <= i < |s| && StepAt(opt, s, i, sb).Crash?
    ensures opt && Unprotected(s, i) && PunctAt(s, i, sb).Crash?
  {
  }

  /** A crash in one step needs the colon guard's input: everything before it was spaces. */
  lemma CrashNeedsLeadingSpaces(opt: bool, s: string, i: int, sb: string)
    requires 0 <= i < |s| && StepAt(opt, s, i, sb).Crash?
    requires RemoveSpaces(sb) == RemoveSpaces(s[..i])
    ensures opt && ColonGuardThrows(s)
  {
    StepThrows(opt, s, i, sb);
    PunctThrows(s, i, sb);
    TrimKeepsNonSpaces(sb);
    NothingLeftMeansSpaces(s[..i]);
    assert forall k :: 0 <= k < i ==> s[k] == s[..i][k];
    SpacesEndIs(s, 0, i);
  }

  lemma PrefixKeepsNonSpaces(s: string, i: int, j: int, sb: string, b: string)
    requires 0 <= i <= j <= |s|
    requires RemoveSpaces(sb) == RemoveSpaces(s[..i])
    requires RemoveSpaces(b) == RemoveSpaces(sb) + RemoveSpaces(s[i..j])
    ensures RemoveSpaces(b) == RemoveSpaces(s[..j])
  {
    PrefixSplit(s, i, j);
    RemoveSpacesConcat(s[..i], s[i..j]);
  }

  lemma {:induction false} ThrowNeedsLeadingSpaces(opt: bool, s: string, i: int, sb: string)
    requires 0 <= i <= |s| && ScanFrom(opt, s, i, sb) == IndexOutOfRange
    requires RemoveSpaces(sb) == RemoveSpaces(s[..i])
    ensures opt && ColonGuardThrows(s)
    decreases |s| - i
  {
    assert i < |s|;
    ScanStep(opt, s, i, sb);
    var st := StepAt(opt, s, i, sb);
    if st.Crash? {
      CrashNeedsLeadingSpaces(opt, s, i, sb);
    } else {
      StepKeepsNonSpaces(opt, s, i, sb);
      PrefixKeepsNonSpaces(s, i, st.next, sb, st.buf);
      ThrowNeedsLeadingSpaces(opt, s, st.next, st.buf);
    }
  }

  lemma {:induction false} SpacesEndIs(s: string, j: int, p: int)
    requires 0 <= j <= p < |s| && s[p] != ' ' && forall k :: j <= k < p ==> s[k] == ' '
    ensures RunEnd(s, j, ' ') == p
    decreases p - j
  {
    if j < p {
      SpacesEndIs(s, j + 1, p);
    }
  }

  /**
   * FixPunctuationSpacing throws exactly when colons count as sentence
   * punctuation and the text (newlines unified) is one or more spaces
   * followed by a colon that does not start "://".
   */
  lemma ColonGuardThrowsExactly(input: string, treatColonAsSentencePunct: bool)
    ensures FixSpacing(input, treatColonAsSentencePunct) == IndexOutOfRange
        <==> treatColonAsSentencePunct && ColonGuardThrows(NormalizeNewlines(input))
  {
    var s := NormalizeNewlines(input);
    NormalizedHasNoCr(input);
    if |input| > 0 {
      if ScanFrom(treatColonAsSentencePunct, s, 0, []) == IndexOutOfRange {
        assert s[..0] == [];
        ThrowNeedsLeadingSpaces(treatColonAsSentencePunct, s, 0, []);
      }
      if treatColonAsSentencePunct && ColonGuardThrows(s) {
        LeadingSpacesThenThrow(treatColonAsSentencePunct, s, 0, []);
      }
    }
  }

  // ---------------------------------------------------------------- the punctuation rule

  /**
   * At sentence punctuation that no span protects, the spaces before it are
   * removed, the closing quotes and brackets right after it are copied with
   * it, and one space follows unless the text ends there or the next
   * character is a space, a newline, a tab or sentence punctuation.
   */
  lemma PunctuationSpacing(opt: bool, s: string, i: int, sb: string)
    requires 0 <= i < |s| && Unprotected(s, i) && IsSentencePunct(s[i])
    ensures var t := TrimEndSpaces(sb);
      var j := ClosersEnd(s, i + 1);
      var spaced := j < |s| && s[j] != ' ' && s[j] != '\n' && s[j] != '\t' && !IsSentencePunct(s[j]);
      && RemoveSpaces(t) == RemoveSpaces(sb) && (t == [] || t[|t| - 1] != ' ')
      && (forall k :: i < k < j ==> IsClosing(s[k])) && (j == |s| || !IsClosing(s[j]))
      && StepAt(opt, s, i, sb) == Next(j, t + s[i..j] + (if spaced then " " else ""))
  {
    StepPunct(opt, s, i, sb);
    TrimKeepsNonSpaces(sb);
  }

  /**
   * A colon that counts as sentence punctuation is copied with no space
   * after it when it starts "://"; otherwise the guard reads the character
   * before it in the buffer (throwing when the spaces removed before it
   * leave the buffer empty), and a colon after or before a digit is copied
   * with no space either. Any other colon is spaced like sentence
   * punctuation. The spaces before a colon are removed in every case.
   */
  lemma ColonSpacing(s: string, i: int, sb: string)
    requires 0 <= i < |s| && Unprotected(s, i) && s[i] == ':'
    ensures var t := TrimEndSpaces(sb);
      var url := i + 2 < |s| && s[i + 1] == '/' && s[i + 2] == '/';
      var throws := !url && i > 0 && t == [];
      var digits := (i > 0 && t != [] && IsDigit(t[|t| - 1])) || (i + 1 < |s| && IsDigit(s[i + 1]));
      var j := ClosersEnd(s, i + 1);
      && (url ==> StepAt(true, s, i, sb) == Next(i + 1, t + [':']))
      && (throws ==> StepAt(true, s, i, sb) == Crash)
      && (!url && !throws && digits ==> StepAt(true, s, i, sb) == Next(i + 1, t + [':']))
      && (!url && !throws && !digits ==> StepAt(true, s, i, sb) == Next(j, t + s[i..j] + SpaceAfter(s, j)))
  {
    StepPunct(true, s, i, sb);
  }

  // ---------------------------------------------------------------- spacing is not idempotent

  /** No URL, www. prefix or path starts at an 'a' or a '.' that is not followed by ':'. */
  lemma {:induction false} NoUrlAt(s: string, i: int, k: int)
    requires 0 <= i < |s| && (s[i] == 'a' || s[i] == '.') && !(i + 1 < |s| && s[i + 1] == ':') && 0 <= k <= |Schemes|
    ensures SchemeFrom(s, i, Schemes, k).None? && WwwSpan(s, i).None? && WinPathSpan(s, i).None? && NixPathSpan(s, i).None?
    decreases |Schemes| - k
  {
    SchemesAreLong();
    NoPrefixAt(s, i, "www.");
    if k < |Schemes| {
      assert Schemes[k][0] == 'h' || Schemes[k][0] == 'f';
      NoPrefixAt(s, i, Schemes[k]);
      NoUrlAt(s, i, k + 1);
    }
  }

  /** A run of e-mail local-part characters that reaches the end of the text is no address. */
  lemma NoEmailToEnd(s: string, i: int)
    requires 0 <= i < |s| && forall k :: i <= k < |s| ==> IsEmailLocalChar(s[k])
    ensures EmailSpan(s, i).None?
  {
    assert LocalEnd(s, i) == |s|;
  }

  /** Letters and dots up to a final '.': the label loop fails or ends with an empty last label. */
  lemma {:induction false} LabelsEndInDot(s: string, j: int, dots: nat, labelLen: nat)
    requires 0 <= j <= |s| && labelLen <= j && |s| > 0 && s[|s| - 1] == '.'
    requires forall k :: j <= k < |s| ==> IsLetter(s[k]) || s[k] == '.'
    requires j == |s| ==> labelLen == 0
    ensures LabelScan(s, j, dots, labelLen).None? || LabelScan(s, j, dots, labelLen).value.last == 0
    decreases |s| - j
  {
    if j < |s| {
      if s[j] == '.' {
        if labelLen != 0 {
          LabelsEndInDot(s, j + 1, dots + 1, 0);
        }
      } else {
        LabelsEndInDot(s, j + 1, dots, labelLen + 1);
      }
    }
  }

  /** So no host name is read from text that ends in a '.' after letters and dots. */
  lemma NoDomainBeforeFinalDot(s: string, i: int)
    requires 0 <= i < |s| && s[|s| - 1] == '.'
    requires forall k :: i <= k < |s| ==> IsLetter(s[k]) || s[k] == '.'
    ensures DomainSpan(s, i).None?
  {
    LabelsEndInDot(s, i, 0, 0);
  }

  /** No version, decimal or time starts at a character that is neither a digit nor 'v'. */
  lemma NoNumberAt(s: string, i: int)
    requires 0 <= i < |s| && !IsDigit(s[i]) && s[i] != 'v' && s[i] != 'V'
    ensures VersionSpan(s, i).None? && DecimalSpan(s, i).None? && TimeSpan(s, i).None?
  {
    assert DigitsEnd(s, i) == i && DigitsMaxEnd(s, i, 2) == i;
  }

  /** At most one letter-dot pair at i is no dotted abbreviation. */
  lemma OneDottedPair(s: string, i: int)
    requires 0 <= i < |s| && !(i + 3 < |s| && IsAsciiLetter(s[i]) && s[i + 1] == '.' && IsAsciiLetter(s[i + 2]) && s[i + 3] == '.')
    ensures DottedAbbrevSpan(s, i).None?
  {
    if i + 1 < |s| && IsAsciiLetter(s[i]) && s[i + 1] == '.' {
      assert DottedRun(s, i + 2, 1).1 == 1;
    }
  }

  /** Text of 'a's and dots ending in '.': nothing is protected where no ellipsis and no two letter-dot pairs start. */
  lemma AsAndDotsUnprotected(s: string, i: int)
    requires 0 <= i < |s| && s[|s| - 1] == '.' && forall k :: 0 <= k < |s| ==> s[k] == 'a' || s[k] == '.'
    requires !(i + 2 < |s| && s[i] == '.' && s[i + 1] == '.')
    requires !(i + 3 < |s| && s[i] == 'a' && s[i + 1] == '.' && s[i + 2] == 'a' && s[i + 3] == '.')
    ensures Unprotected(s, i)
  {
    NoUrlAt(s, i, 0);
    NoEmailToEnd(s, i);
    NoDomainBeforeFinalDot(s, i);
    NoNumberAt(s, i);
    OneDottedPair(s, i);
  }

  /** A text of 'a's and dots that ends in '.'. */
  predicate AsAndDots(s: string)
  {
    |s| > 0 && s[|s| - 1] == '.' && forall k :: 0 <= k < |s| ==> s[k] == 'a' || s[k] == '.'
  }

  /** One step of the scan, as a rewrite of the scan itself. */
  lemma ScanByStep(s: string, i: int, sb: string, j: int, b: string)
    requires 0 <= i < |s| && StepAt(false, s, i, sb) == Next(j, b)
    ensures ScanFrom(false, s, i, sb) == ScanFrom(false, s, j, b)
  {
    ScanStep(false, s, i, sb);
  }

  /** An 'a' that does not start two letter-dot pairs is copied. */
  lemma LetterStep(s: string, i: int, sb: string)
    requires AsAndDots(s) && 0 <= i < |s| && s[i] == 'a'
    requires !(i + 3 < |s| && s[i + 1] == '.' && s[i + 2] == 'a' && s[i + 3] == '.')
    ensures StepAt(false, s, i, sb) == Next(i + 1, sb + "a")
  {
    AsAndDotsUnprotected(s, i);
    StepPlain(false, s, i, sb);
  }

  /** A '.' followed by a letter, after a buffer that does not end in a space, gets one space. */
  lemma InnerDotStep(s: string, i: int, sb: string)
    requires AsAndDots(s) && 0 <= i < |s| - 1 && s[i] == '.' && s[i + 1] == 'a'
    requires sb == [] || sb[|sb| - 1] != ' '
    ensures StepAt(false, s, i, sb) == Next(i + 1, sb + ". ")
  {
    AsAndDotsUnprotected(s, i);
    PunctuationSpacing(false, s, i, sb);
    assert ClosersEnd(s, i + 1) == i + 1;
    assert s[i..i + 1] == ".";
  }

  /** A final '.' removes the spaces before it and gets none after it. */
  lemma FinalDotStep(s: string, sb: string)
    requires |s| > 0 && Unprotected(s, |s| - 1) && s[|s| - 1] == '.'
    ensures StepAt(false, s, |s| - 1, sb) == Next(|s|, TrimEndSpaces(sb) + ".")
  {
    PunctuationSpacing(false, s, |s| - 1, sb);
    assert s[|s| - 1..|s|] == ".";
  }

  /** Five steps that reach the end of the text make the whole scan. */
  lemma ScanOfFiveSteps(s: string, b0: string, b1: string, b2: string, b3: string, b4: string, b5: string)
    requires |s| == 5 && StepAt(false, s, 0, b0) == Next(1, b1) && StepAt(false, s, 1, b1) == Next(2, b2)
    requires StepAt(false, s, 2, b2) == Next(3, b3) && StepAt(false, s, 3, b3) == Next(4, b4)
    requires StepAt(false, s, 4, b4) == Next(5, b5)
    ensures ScanFrom(false, s, 0, b0) == Spaced(b5)
  {
    ScanByStep(s, 4, b4, 5, b5);
    ScanByStep(s, 3, b3, 4, b4);
    ScanByStep(s, 2, b2, 3, b3);
    ScanByStep(s, 1, b1, 2, b2);
    ScanByStep(s, 0, b0, 1, b1);
  }

  /** Three steps that reach the end of a text of six characters make the whole scan. */
  lemma ScanOfThreeSteps(s: string, b0: string, b4: string, b5: string, b6: string)
    requires |s| == 6 && StepAt(false, s, 0, b0) == Next(4, b4) && StepAt(false, s, 4, b4) == Next(5, b5)
    requires StepAt(false, s, 5, b5) == Next(6, b6)
    ensures ScanFrom(false, s, 0, b0) == Spaced(b6)
  {
    ScanByStep(s, 5, b5, 6, b6);
    ScanByStep(s, 4, b4, 5, b5);
    ScanByStep(s, 0, b0, 4, b4);
  }

  lemma SecondPassShape(s: string)
    requires |s| == 5 && s[0] == 'a' && s[1] == '.' && s[2] == 'a' && s[3] == 'a' && s[4] == '.'
    ensures AsAndDots(s) && Unprotected(s, 4)
  {
    AsAndDotsUnprotected(s, 4);
  }

  /** The first two steps over "a.aa.": the dot inside gets a space. */
  lemma SecondPassHead(s: string)
    requires |s| == 5 && s[0] == 'a' && s[1] == '.' && s[2] == 'a' && s[3] == 'a' && s[4] == '.'
    ensures StepAt(false, s, 0, []) == Next(1, "a") && StepAt(false, s, 1, "a") == Next(2, "a. ")
  {
    SecondPassShape(s);
    LetterStep(s, 0, []);
    InnerDotStep(s, 1, "a");
  }

  /** The last three steps over "a.aa.": the final dot gets no space. */
  lemma SecondPassTail(s: string)
    requires |s| == 5 && s[0] == 'a' && s[1] == '.' && s[2] == 'a' && s[3] == 'a' && s[4] == '.'
    ensures StepAt(false, s, 2, "a. ") == Next(3, "a. a") && StepAt(false, s, 3, "a. a") == Next(4, "a. aa")
    ensures StepAt(false, s, 4, "a. aa") == Next(5, "a. aa.")
  {
    SecondPassShape(s);
    LetterStep(s, 2, "a. ");
    LetterStep(s, 3, "a. a");
    FinalDotStep(s, "a. aa");
  }

  /** "a.aa." is a scan of five steps. */
  lemma SecondPassScan(s: string)
    requires |s| == 5 && s[0] == 'a' && s[1] == '.' && s[2] == 'a' && s[3] == 'a' && s[4] == '.'
    ensures ScanFrom(false, s, 0, []) == Spaced("a. aa.")
  {
    SecondPassHead(s);
    SecondPassTail(s);
    ScanOfFiveSteps(s, [], "a", "a. ", "a. a", "a. aa", "a. aa.");
  }

  /** "a.aa" before a space is a host name, so the scan copies it whole. */
  lemma DomainFirst(s: string)
    requires |s| == 6 && s[0] == 'a' && s[1] == '.' && s[2] == 'a' && s[3] == 'a' && s[4] == ' ' && s[5] == '.'
    ensures ProtectedSpan(s, 0) == Some(4)
  {
    NoUrlAt(s, 0, 0);
    assert LocalEnd(s, 4) == 4 && LocalEnd(s, 3) == 4 && LocalEnd(s, 2) == 4 && LocalEnd(s, 1) == 4 && LocalEnd(s, 0) == 4;
    assert LabelScan(s, 4, 1, 2) == Some(Labels(4, 1, 2));
    assert LabelScan(s, 2, 1, 0) == Some(Labels(4, 1, 2));
    assert LabelScan(s, 0, 0, 0) == Some(Labels(4, 1, 2));
    assert AllLettersIn(s, 2, 4);
  }

  lemma FirstPassLastDot(s: string)
    requires |s| == 6 && s[0] == 'a' && s[1] == '.' && s[2] == 'a' && s[3] == 'a' && s[4] == ' ' && s[5] == '.'
    ensures Unprotected(s, 5)
  {
    NoUrlAt(s, 5, 0);
    NoEmailToEnd(s, 5);
    NoNumberAt(s, 5);
    OneDottedPair(s, 5);
  }

  /** The first step over "a.aa .": the host name is copied whole. */
  lemma FirstPassDomainStep(s: string)
    requires |s| == 6 && s[0] == 'a' && s[1] == '.' && s[2] == 'a' && s[3] == 'a' && s[4] == ' ' && s[5] == '.'
    ensures StepAt(false, s, 0, []) == Next(4, "a.aa")
  {
    DomainFirst(s);
    assert s[0..4] == "a.aa";
  }

  /** The last step over "a.aa .": the final dot removes the space before it. */
  lemma FirstPassDotStep(s: string)
    requires |s| == 6 && s[0] == 'a' && s[1] == '.' && s[2] == 'a' && s[3] == 'a' && s[4] == ' ' && s[5] == '.'
    ensures StepAt(false, s, 5, "a.aa ") == Next(6, "a.aa.")
  {
    FirstPassLastDot(s);
    FinalDotStep(s, "a.aa ");
    assert TrimEndSpaces("a.aa ") == "a.aa";
  }

  /** The three steps over "a.aa .": the host name, the space, and the final dot. */
  lemma FirstPassSteps(s: string)
    requires |s| == 6 && s[0] == 'a' && s[1] == '.' && s[2] == 'a' && s[3] == 'a' && s[4] == ' ' && s[5] == '.'
    ensures StepAt(false, s, 0, []) == Next(4, "a.aa") && StepAt(false, s, 4, "a.aa") == Next(5, "a.aa ")
    ensures StepAt(false, s, 5, "a.aa ") == Next(6, "a.aa.")
  {
    FirstPassDomainStep(s);
    SpaceCopied(false, s, 4, "a.aa");
    FirstPassDotStep(s);
  }

  /** "a.aa ." is a scan of three steps. */
  lemma FirstPassScan(s: string)
    requires |s| == 6 && s[0] == 'a' && s[1] == '.' && s[2] == 'a' && s[3] == 'a' && s[4] == ' ' && s[5] == '.'
    ensures ScanFrom(false, s, 0, []) == Spaced("a.aa.")
  {
    FirstPassSteps(s);
    ScanOfThreeSteps(s, [], "a.aa", "a.aa ", "a.aa.");
  }

  /**
   * The spacing pass is not idempotent: "a.aa" before " ." is a host name
   * and is copied whole, but once the space is gone the trailing dot makes
   * the last label empty, the host name is rejected, and the inner dot is
   * spaced like sentence punctuation.
   */
  lemma SpacingNotIdempotent()
    ensures FixSpacing("a.aa .", false) == Spaced("a.aa.")
    ensures FixSpacing("a.aa.", false) == Spaced("a. aa.")
  {
    FirstPass();
    SecondPass();
  }

  lemma FirstPass()
    ensures FixSpacing("a.aa .", false) == Spaced("a.aa.")
  {
    NormalizeWithoutCr("a.aa .");
    FirstPassScan("a.aa .");
    CollapseUnchanged("a.aa.");
  }

  lemma SecondPass()
    ensures FixSpacing("a.aa.", false) == Spaced("a. aa.")
  {
    NormalizeWithoutCr("a.aa.");
    SecondPassScan("a.aa.");
    SecondPassCollapse();
  }

  lemma SecondPassCollapse()
    ensures Collapse("a. aa.") == "a. aa."
  {
    CollapseUnchanged("a. aa.");
  }

  // ---------------------------------------------------------------- spans and the final collapse

  /** A settled prefix of the buffer (one that does not end in a space) survives trimming. */
  lemma {:induction false} TrimKeepsSettled(p: string, b: string)
    requires p <= b && (p == [] || p[|p| - 1] != ' ')
    ensures p <= TrimEndSpaces(b)
    decreases |b|
  {
    if |b| > |p| && b[|b| - 1] == ' ' {
      TrimKeepsSettled(p, b[..|b| - 1]);
    }
  }

  /** The punctuation rule appends to the buffer with its trailing spaces trimmed. */
  lemma PunctExtendsTrimmed(s: string, i: int, sb: string)
    requires 0 <= i < |s|
    ensures PunctAt(s, i, sb).Next? ==> TrimEndSpaces(sb) <= PunctAt(s, i, sb).buf
  {
    var t := TrimEndSpaces(sb);
    if s[i] == ':' && i + 2 < |s| && s[i + 1] == '/' && s[i + 2] == '/' {
      assert PunctAt(s, i, sb) == Next(i + 1, t + [':']);
    } else if s[i] == ':' && i > 0 && t == [] {
    } else if s[i] == ':' && ((i > 0 && IsDigit(t[|t| - 1])) || (i + 1 < |s| && IsDigit(s[i + 1]))) {
      assert PunctAt(s, i, sb) == Next(i + 1, t + [':']);
    } else {
      var j := ClosersEnd(s, i + 1);
      assert PunctAt(s, i, sb) == Next(j, t + s[i..j] + SpaceAfter(s, j));
    }
  }

  /** One step of the scan only ever appends to the buffer with its trailing spaces trimmed. */
  lemma StepExtendsTrimmed(opt: bool, s: string, i: int, sb: string)
    requires 0 <= i < |s|
    ensures StepAt(opt, s, i, sb).Next? ==> TrimEndSpaces(sb) <= StepAt(opt, s, i, sb).buf
  {
    if Unprotected(s, i) {
      if IsSentencePunct(s[i]) || (opt && s[i] == ':') {
        StepPunct(opt, s, i, sb);
        PunctExtendsTrimmed(s, i, sb);
      } else {
        StepPlain(opt, s, i, sb);
      }
    } else if s[i] == '`' {
      CodeSpanCopied(opt, s, i, sb);
    } else if ProtectedSpan(s, i).Some? {
      ProtectedSpanCopied(opt, s, i, sb);
    } else {
      assert sb <= StepAt(opt, s, i, sb).buf;
    }
  }

  /** What the scan has settled in its buffer is a prefix of what it produces. */
  lemma {:induction false} ScanKeepsSettled(opt: bool, s: string, i: int, sb: string, p: string)
    requires 0 <= i <= |s| && ScanFrom(opt, s, i, sb).Spaced?
    requires p <= sb && (p == [] || p[|p| - 1] != ' ')
    ensures p <= ScanFrom(opt, s, i, sb).text
    decreases |s| - i
  {
    if i < |s| {
      match StepAt(opt, s, i, sb)
      case Crash =>
      case Next(j, b) =>
        StepExtendsTrimmed(opt, s, i, sb);
        TrimKeepsSettled(p, sb);
        ScanKeepsSettled(opt, s, j, b, p);
    }
  }

  /** Collapsing respects prefixes. */
  lemma {:induction false} CollapsePrefix(a: string, c: string)
    requires a <= c
    ensures Collapse(a) <= Collapse(c)
    decreases |c|
  {
    if |a| < |c| {
      assert a <= c[..|c| - 1];
      CollapsePrefix(a, c[..|c| - 1]);
    } else {
      assert a == c;
    }
  }

  /** A piece that starts with a non-space and holds no two spaces side by side passes the collapse unchanged. */
  lemma {:induction false} CollapseAppend(x: string, y: string)
    requires |y| > 0 && y[0] != ' ' && NoDoubleSpace(y)
    ensures Collapse(x + y) == Collapse(x) + y
    decreases |y|
  {
    var xy := x + y;
    var c := y[|y| - 1];
    if |y| == 1 {
      assert xy[..|xy| - 1] == x;
      assert Collapse(xy) == Collapse(x) + [c];
    } else {
      var y0 := y[..|y| - 1];
      assert xy[..|xy| - 1] == x + y0;
      assert NoDoubleSpace(y0) by {
        assert forall k :: 0 <= k < |y0| ==> y0[k] == y[k];
      }
      CollapseAppend(x, y0);
      assert !(xy[|xy| - 1] == ' ' && xy[|xy| - 2] == ' ') by {
        assert xy[|xy| - 1] == y[|y| - 1] && xy[|xy| - 2] == y[|y| - 2];
      }
      assert Collapse(xy) == Collapse(x + y0) + [c];
      Snoc(y);
    }
  }

  /**
   * A span the scan copies whole (a code span, a URL, a path, an address,
   * a number, a dotted abbreviation) that neither starts nor ends with a
   * space and holds no two spaces side by side comes out of the final
   * collapse unchanged, right after the collapsed text before it.
   */
  lemma SpanSurvives(opt: bool, s: string, i: int, sb: string, e: int)
    requires 0 <= i < e <= |s| && StepAt(opt, s, i, sb) == Next(e, sb + s[i..e])
    requires s[i] != ' ' && s[e - 1] != ' ' && NoDoubleSpace(s[i..e])
    requires ScanFrom(opt, s, i, sb).Spaced?
    ensures Collapse(sb) + s[i..e] <= Collapse(ScanFrom(opt, s, i, sb).text)
  {
    var b := sb + s[i..e];
    ScanStep(opt, s, i, sb);
    ScanKeepsSettled(opt, s, e, b, b);
    CollapsePrefix(b, ScanFrom(opt, s, e, b).text);
    CollapseAppend(sb, s[i..e]);
  }

  /** A backtick starts a code span, which the scan copies whole. */
  lemma CodeSpanCopied(opt: bool, s: string, i: int, sb: string)
    requires 0 <= i < |s| && s[i] == '`'
    ensures StepAt(opt, s, i, sb) == Next(CodeSpanEnd(s, i), sb + s[i..CodeSpanEnd(s, i)])
  {
  }

  /** A recognised URL, path, address, host name, version or number is copied whole. */
  lemma ProtectedSpanCopied(opt: bool, s: string, i: int, sb: string)
    requires 0 <= i < |s| && s[i] != '`' && ProtectedSpan(s, i).Some?
    ensures StepAt(opt, s, i, sb) == Next(ProtectedSpan(s, i).value, sb + s[i..ProtectedSpan(s, i).value])
  {
  }

  /** A code span with no run of spaces, and not ending in one, appears unchanged in the result. */
  lemma CodeSpanSurvives(opt: bool, s: string, i: int, sb: string)
    requires 0 <= i < |s| && s[i] == '`'
    requires s[CodeSpanEnd(s, i) - 1] != ' ' && NoDoubleSpace(s[i..CodeSpanEnd(s, i)])
    requires ScanFrom(opt, s, i, sb).Spaced?
    ensures Collapse(sb) + s[i..CodeSpanEnd(s, i)] <= Collapse(ScanFrom(opt, s, i, sb).text)
  {
    CodeSpanCopied(opt, s, i, sb);
    SpanSurvives(opt, s, i, sb, CodeSpanEnd(s, i));
  }

  /** A text that opens with such a code span keeps it, as it is, at the head of the result. */
  lemma LeadingCodeSpanKept(input: string, opt: bool)
    requires |input| > 0 && FixSpacing(input, opt).Spaced?
    requires NormalizeNewlines(input)[0] == '`'
    requires var s := NormalizeNewlines(input); var e := CodeSpanEnd(s, 0);
      s[e - 1] != ' ' && NoDoubleSpace(s[..e])
    ensures var s := NormalizeNewlines(input);
      s[..CodeSpanEnd(s, 0)] <= FixSpacing(input, opt).text
  {
    var s := NormalizeNewlines(input);
    assert s[0..CodeSpanEnd(s, 0)] == s[..CodeSpanEnd(s, 0)];
    CodeSpanSurvives(opt, s, 0, []);
  }

  /**
   * The collapse runs over the whole buffer after the scan, so a run of
   * spaces inside a code span is squeezed like any other.
   */
  lemma CodeSpanSqueezed()
    ensures FixSpacing("`a  b`", false) == Spaced("`a b`")
  {
    NormalizeWithoutCr("`a  b`");
    SqueezedScan("`a  b`");
    SqueezedCollapse();
  }

  lemma SqueezedScan(s: string)
    requires s == "`a  b`"
    ensures ScanFrom(false, s, 0, []) == Spaced(s)
  {
    assert InlineScan(s, 5) == 5;
    assert InlineScan(s, 1) == 5;
    assert CodeSpanEnd(s, 0) == 6;
    assert s[0..6] == s;
    ScanByStep(s, 0, [], 6, s);
  }

  lemma SqueezedCollapse()
    ensures Collapse("`a  b`") == "`a b`"
  {
    CollapseAppend("`a  ", "b`");
    assert "`a  " + "b`" == "`a  b`";
    assert "`a  "[..3] == "`a ";
    CollapseUnchanged("`a ");
    assert Collapse("`a  ") == "`a ";
  }
}
