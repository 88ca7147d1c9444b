/**
 * What each protected span looks like, stated without reference to how
 * the recogniser scans: versions and decimals as digit groups, times with
 * their optional seconds and am/pm, ellipses, dotted abbreviations, host
 * names of e-mails and domains, URL ends and code spans.
 */
module SpanShapes {
  import opened Chars
  import opened Wrappers
  import opened SpacingSpans

  /** s[a..e] is runs of digits separated by single sep characters, starting and ending with a digit. */
  predicate SeparatedDigits(s: string, a: int, e: int, sep: char)
    requires 0 <= a <= e <= |s|
  {
    && a < e && IsDigit(s[a]) && IsDigit(s[e - 1])
    && (forall k :: a <= k < e ==> IsDigit(s[k]) || s[k] == sep)
    && (forall k :: a <= k < e - 1 ==> !(s[k] == sep && s[k + 1] == sep))
  }

  predicate HasCharIn(s: string, a: int, e: int, c: char)
    requires 0 <= a <= e <= |s|
  {
    exists k :: a <= k < e && s[k] == c
  }

  lemma DigitsAreSeparated(s: string, a: int, e: int, sep: char)
    requires 0 <= a < e <= |s| && AllDigitsIn(s, a, e) && !IsDigit(sep)
    ensures SeparatedDigits(s, a, e, sep)
  {
  }

  /** Appending sep and a run of digits to separated digits keeps them separated. */
  lemma ExtendSeparated(s: string, a: int, j: int, e: int, sep: char)
    requires 0 <= a < j && j + 1 < e <= |s| && SeparatedDigits(s, a, j, sep) && s[j] == sep
    requires AllDigitsIn(s, j + 1, e) && !IsDigit(sep)
    ensures SeparatedDigits(s, a, e, sep)
  {
  }

  // ---------------------------------------------------------------- versions

  lemma {:induction false} VersionTailShape(s: string, a: int, j: int, groups: nat)
    requires 0 <= a < j <= |s| && SeparatedDigits(s, a, j, '.')
    ensures var r := VersionTail(s, j, groups);
      SeparatedDigits(s, a, r.0, '.') && (r.1 > groups ==> HasCharIn(s, a, r.0, '.'))
    decreases |s| - j
  {
    if j < |s| && s[j] == '.' {
      var e := DigitsEnd(s, j + 1);
      if e > j + 1 {
        ExtendSeparated(s, a, j, e, '.');
        VersionTailShape(s, a, e, groups + 1);
        assert s[j] == '.' && j < VersionTail(s, e, groups + 1).0;
      }
    }
  }

  /** A version is an optional 'v' or 'V' and two or more digit groups separated by single dots. */
  lemma VersionShape(s: string, i: int)
    requires 0 <= i < |s| && VersionSpan(s, i).Some?
    ensures var e := VersionSpan(s, i).value;
      var a := if s[i] == 'v' || s[i] == 'V' then i + 1 else i;
      a < e && SeparatedDigits(s, a, e, '.') && HasCharIn(s, a, e, '.')
  {
    var a := if s[i] == 'v' || s[i] == 'V' then i + 1 else i;
    var d := DigitsEnd(s, a);
    DigitsAreSeparated(s, a, d, '.');
    VersionTailShape(s, a, d, 0);
  }

  // ---------------------------------------------------------------- decimals

  lemma {:induction false} ThousandsShape(s: string, a: int, j: int)
    requires 0 <= a < j <= |s| && SeparatedDigits(s, a, j, ',')
    ensures SeparatedDigits(s, a, Thousands(s, j), ',')
    decreases |s| - j
  {
    if j < |s| && s[j] == ',' && j + 1 < |s| && IsDigit(s[j + 1]) {
      var e := DigitsEnd(s, j + 1);
      ExtendSeparated(s, a, j, e, ',');
      ThousandsShape(s, a, e);
    }
  }

  /**
   * A decimal is digit groups separated by single commas, one '.', and
   * digits. The ',' that the recogniser also accepts as a decimal
   * separator never gets that far: the thousands loop has already taken it.
   */
  lemma DecimalShape(s: string, i: int)
    requires 0 <= i < |s| && DecimalSpan(s, i).Some?
    ensures var f := DecimalSpan(s, i).value;
      exists d :: i < d && d + 1 < f && s[d] == '.' && SeparatedDigits(s, i, d, ',') && AllDigitsIn(s, d + 1, f)
  {
    var f := DecimalSpan(s, i).value;
    var e := DigitsEnd(s, i);
    DigitsAreSeparated(s, i, e, ',');
    ThousandsShape(s, i, e);
    var d := Thousands(s, e);
    assert s[d] == '.' && SeparatedDigits(s, i, d, ',') && AllDigitsIn(s, d + 1, f);
  }

  // ---------------------------------------------------------------- times and ratios

  predicate SecondsAt(s: string, b: int)
    requires 0 <= b && b + 3 <= |s|
  {
    s[b] == ':' && IsDigit(s[b + 1]) && IsDigit(s[b + 2])
  }

  /** s[c..e] is spaces, then "am" or "pm" in either case. */
  predicate AmPmAt(s: string, c: int, e: int)
    requires 0 <= c <= e <= |s|
  {
    c + 2 <= e && (forall k :: c <= k < e - 2 ==> s[k] == ' ') && IsAmPmLetter(s[e - 2]) && IsM(s[e - 1])
  }

  /** After the minutes: nothing, ":ss", an am/pm, or ":ss" and an am/pm. */
  predicate TimeTail(s: string, b: int, e: int)
    requires 0 <= b <= e <= |s|
  {
    || e == b
    || (e == b + 3 && SecondsAt(s, b))
    || AmPmAt(s, b, e)
    || (b + 3 <= e && SecondsAt(s, b) && AmPmAt(s, b + 3, e))
  }

  lemma AmPmShape(s: string, c: int)
    requires 0 <= c <= |s|
    ensures AmPmEnd(s, c) == c || AmPmAt(s, c, AmPmEnd(s, c))
  {
  }

  /** A time or ratio is one or two digits, ':', one or two digits, then an optional ":ss" and am/pm. */
  lemma TimeShape(s: string, i: int)
    requires 0 <= i < |s| && TimeSpan(s, i).Some?
    ensures var e := TimeSpan(s, i).value;
      exists a, b :: i < a <= i + 2 && a + 1 < b <= a + 3 && b <= e
        && AllDigitsIn(s, i, a) && s[a] == ':' && AllDigitsIn(s, a + 1, b) && TimeTail(s, b, e)
  {
    var a := DigitsMaxEnd(s, i, 2);
    var b := DigitsMaxEnd(s, a + 1, 2);
    var c := SecondsEnd(s, b);
    AmPmShape(s, c);
    assert AllDigitsIn(s, i, a) && s[a] == ':' && AllDigitsIn(s, a + 1, b) && TimeTail(s, b, TimeSpan(s, i).value);
  }

  // ---------------------------------------------------------------- ellipses and abbreviations

  /** An ellipsis is the character … or the whole run of three or more dots. */
  lemma EllipsisShape(s: string, i: int)
    requires 0 <= i < |s| && EllipsisSpan(s, i).Some?
    ensures var e := EllipsisSpan(s, i).value;
      || (s[i] == '\U{2026}' && e == i + 1)
      || (i + 3 <= e && (forall k :: i <= k < e ==> s[k] == '.') && (e == |s| || s[e] != '.'))
  {
  }

  lemma {:induction false} DottedRunShape(s: string, j: int, groups: nat)
    requires 0 <= j <= |s|
    ensures var r := DottedRun(s, j, groups);
      forall g :: 0 <= g < r.1 - groups ==> IsAsciiLetter(s[j + 2 * g]) && s[j + 2 * g + 1] == '.'
    decreases |s| - j
  {
    if j + 1 < |s| && IsAsciiLetter(s[j]) && s[j + 1] == '.' {
      DottedRunShape(s, j + 2, groups + 1);
      var r := DottedRun(s, j, groups);
      forall g | 0 <= g < r.1 - groups
        ensures IsAsciiLetter(s[j + 2 * g]) && s[j + 2 * g + 1] == '.'
      {
        if g > 0 {
          assert j + 2 * g == (j + 2) + 2 * (g - 1);
        }
      }
    }
  }

  /** A dotted abbreviation is two or more letter-dot pairs. */
  lemma DottedAbbrevShape(s: string, i: int)
    requires 0 <= i < |s| && DottedAbbrevSpan(s, i).Some?
    ensures var e := DottedAbbrevSpan(s, i).value;
      e - i >= 4 && (e - i) % 2 == 0
      && forall g :: 0 <= g < (e - i) / 2 ==> IsAsciiLetter(s[i + 2 * g]) && s[i + 2 * g + 1] == '.'
  {
    DottedRunShape(s, i, 0);
  }

  // ---------------------------------------------------------------- host names

  predicate IsLabelChar(c: char) { IsLetterOrDigit(c) || c == '-' || c == '.' }

  /** Letters, digits, '-' and '.', no label empty, a first label before a '.', a last label of two or more letters. */
  predicate IsHost(s: string, j: int, e: int)
    requires 0 <= j <= e <= |s|
  {
    && (forall k :: j <= k < e ==> IsLabelChar(s[k]))
    && (forall k :: j <= k < e && s[k] == '.' ==> k > j && s[k - 1] != '.')
    && exists d :: j < d && d + 2 < e && s[d] == '.' && AllLettersIn(s, d + 1, e)
  }

  /** The label loop so far: s[j0..j] has label characters only, no empty label, and a last label of length labelLen. */
  predicate LabelsSoFar(s: string, j0: int, j: int, dots: nat, labelLen: nat)
    requires 0 <= j0 <= j <= |s|
  {
    && labelLen <= j - j0
    && (forall k :: j0 <= k < j ==> IsLabelChar(s[k]))
    && (forall k :: j0 <= k < j && s[k] == '.' ==> k > j0 && s[k - 1] != '.')
    && (forall k :: j - labelLen <= k < j ==> s[k] != '.')
    && (dots == 0 <==> labelLen == j - j0)
    && (dots > 0 ==> s[j - labelLen - 1] == '.')
  }

  lemma {:induction false} LabelScanShape(s: string, j0: int, j: int, dots: nat, labelLen: nat)
    requires 0 <= j0 <= j <= |s| && LabelsSoFar(s, j0, j, dots, labelLen)
    ensures var r := LabelScan(s, j, dots, labelLen);
      r.Some? ==> j <= r.value.end && LabelsSoFar(s, j0, r.value.end, r.value.dots, r.value.last)
    decreases |s| - j
  {
    if j < |s| && IsLabelChar(s[j]) {
      if s[j] == '.' {
        if labelLen > 0 {
          LabelScanShape(s, j0, j + 1, dots + 1, 0);
        }
      } else {
        LabelScanShape(s, j0, j + 1, dots, labelLen + 1);
      }
    }
  }

  lemma HostShape(s: string, j: int)
    requires 0 <= j <= |s| && HostEnd(s, j).Some?
    ensures IsHost(s, j, HostEnd(s, j).value)
  {
    LabelScanShape(s, j, j, 0, 0);
    var l := LabelScan(s, j, 0, 0).value;
    var d := l.end - l.last - 1;
    assert s[d] == '.' && AllLettersIn(s, d + 1, l.end);
  }

  /** An e-mail is local-part characters, '@', and a host name. */
  lemma EmailShape(s: string, i: int)
    requires 0 <= i < |s| && EmailSpan(s, i).Some?
    ensures var e := EmailSpan(s, i).value;
      exists at :: i < at < e && s[at] == '@' && (forall k :: i <= k < at ==> IsEmailLocalChar(s[k])) && IsHost(s, at + 1, e)
  {
    var at := LocalEnd(s, i);
    HostShape(s, at + 1);
  }

  /** A bare domain is a host name. */
  lemma DomainShape(s: string, i: int)
    requires 0 <= i < |s| && DomainSpan(s, i).Some?
    ensures IsHost(s, i, DomainSpan(s, i).value)
  {
    HostShape(s, i);
  }

  // ---------------------------------------------------------------- URL ends

  lemma {:induction false} UrlTrimTakesPunct(s: string, start: int, k: int)
    requires 0 <= start <= k <= |s|
    ensures forall p :: UrlTrim(s, start, k) <= p < k ==> IsUrlTerminalPunct(s[p])
    decreases k
  {
    if k > start && IsUrlTerminalPunct(s[k - 1]) && !KeepsCloser(s, start, k) {
      UrlTrimTakesPunct(s, start, k - 1);
    }
  }

  /**
   * A URL or path runs to the next white space, stopping before a '.'
   * between a digit and a letter; of what it ran over, only terminal
   * punctuation is left out at the end, and the last character kept is
   * not terminal punctuation unless it is a closer whose opener is unmatched.
   */
  lemma UrlShape(s: string, start: int)
    requires 0 <= start <= |s|
    ensures var k := UrlEnd(s, start);
      var w := UrlWalk(s, start, start);
      && k <= w && (w == |s| || IsWhiteSpace(s[w]) || DigitDotLetter(s, start, w))
      && (forall p :: start <= p < k ==> !IsWhiteSpace(s[p]) && !DigitDotLetter(s, start, p))
      && (forall p :: k <= p < w ==> IsUrlTerminalPunct(s[p]))
      && (k == start || !IsUrlTerminalPunct(s[k - 1]) || KeepsCloser(s, start, k))
  {
    UrlTrimTakesPunct(s, start, UrlWalk(s, start, start));
  }

  // ---------------------------------------------------------------- code spans

  predicate FenceAt(s: string, k: int)
    requires 0 <= k && k + 3 <= |s|
  {
    s[k] == '`' && s[k + 1] == '`' && s[k + 2] == '`'
  }

  lemma {:induction false} FenceScanFirst(s: string, j: int)
    requires 0 <= j <= |s|
    ensures forall k :: j <= k < FenceScan(s, j) && k + 3 <= |s| ==> !FenceAt(s, k)
    decreases |s| - j
  {
    if j + 2 < |s| && !FenceAt(s, j) {
      FenceScanFirst(s, j + 1);
    }
  }

  /**
   * A fenced span runs through the first closing ``` after the opening
   * one, or to the end of the text; an inline span runs through the next
   * backtick, stopping at a newline or the end of the text.
   */
  lemma CodeSpanShape(s: string, i: int)
    requires 0 <= i < |s| && s[i] == '`'
    ensures var e := CodeSpanEnd(s, i);
      if i + 2 < |s| && s[i + 1] == '`' && s[i + 2] == '`' then
        (e == |s| || (i + 6 <= e && FenceAt(s, e - 3))) && (forall k :: i + 3 <= k && k + 3 <= e - 3 ==> !FenceAt(s, k))
      else
        (forall k :: i < k < e - 1 ==> s[k] != '`' && s[k] != '\n')
        && (e == |s| || s[e] == '\n' || (e >= i + 2 && s[e - 1] == '`'))
  {
    if i + 2 < |s| && s[i + 1] == '`' && s[i + 2] == '`' {
      FenceScanFirst(s, i + 3);
    }
  }
}
