/**
 * The protected-span recognisers of the punctuation-spacing engine: code
 * spans, URL schemes and www., Windows and Unix paths, e-mails, bare
 * domains, versions, decimals, times and ratios, ellipses and dotted
 * abbreviations.
 *
 * Each recogniser is a pure function giving the end of the span it accepts
 * at position i (None when it does not accept), and a method that scans the
 * way the engine does, proved equal to that function. Every accepted span
 * is non-empty and ends inside the text, which is what makes the engine's
 * cursor advance.
 */
module SpacingSpans {
  import opened Chars
  import opened Wrappers

  // ---------------------------------------------------------------- character classes

  predicate IsSentencePunct(c: char) { c == '.' || c == ',' || c == '!' || c == '?' || c == ';' }

  /** Closing brackets and quotes: ) ] } ” ’ " ' » */
  predicate IsClosing(c: char)
  {
    c == ')' || c == ']' || c == '}' || c == '\U{201D}' || c == '\U{2019}' || c == '"' || c == '\'' || c == '\U{00BB}'
  }

  predicate IsWordChar(c: char) { IsLetterOrDigit(c) || c == '_' }

  predicate IsAsciiLetter(c: char) { ('A' <= c <= 'Z') || ('a' <= c <= 'z') }

  predicate IsEmailLocalChar(c: char)
  {
    IsLetterOrDigit(c) || c == '.' || c == '_' || c == '%' || c == '+' || c == '-'
  }

  predicate IsDomainLabelStart(c: char) { IsLetterOrDigit(c) }

  /** Punctuation that clings to the end of a URL or path in prose. */
  predicate IsUrlTerminalPunct(c: char)
  {
    IsSentencePunct(c) || c == ':' || c == ')' || c == ']' || c == '}' || c == '\U{00BB}'
    || c == '\U{201D}' || c == '\U{2019}' || c == '"' || c == '\'' || c == '\U{2026}'
  }

  predicate AllDigitsIn(s: string, lo: int, hi: int)
    requires 0 <= lo <= hi <= |s|
  {
    forall k :: lo <= k < hi ==> IsDigit(s[k])
  }

  predicate AllLettersIn(s: string, lo: int, hi: int)
    requires 0 <= lo <= hi <= |s|
  {
    forall k :: lo <= k < hi ==> IsLetter(s[k])
  }

  // ---------------------------------------------------------------- digit runs

  /** TryConsumeDigits: the end of the run of digits starting at j. */
  function DigitsEnd(s: string, j: int): (r: int)
    requires 0 <= j <= |s|
    ensures j <= r <= |s| && AllDigitsIn(s, j, r)
    ensures r == |s| || !IsDigit(s[r])
    decreases |s| - j
  {
    if j < |s| && IsDigit(s[j]) then DigitsEnd(s, j + 1) else j
  }

  method TryConsumeDigits(s: string, start: int) returns (ok: bool, j: int)
    requires 0 <= start <= |s|
    ensures j == DigitsEnd(s, start) && ok == (j > start)
  {
    j := start;
    while j < |s| && IsDigit(s[j])
      invariant start <= j <= |s|
      invariant DigitsEnd(s, j) == DigitsEnd(s, start)
    {
      j := j + 1;
    }
    ok := j > start;
  }

  /** TryConsumeDigitsMax: at most max digits starting at j. */
  function DigitsMaxEnd(s: string, j: int, max: nat): (r: int)
    requires 0 <= j <= |s|
    ensures j <= r <= |s| && r - j <= max && AllDigitsIn(s, j, r)
    ensures r - j == max || r == |s| || !IsDigit(s[r])
    decreases max
  {
    if max > 0 && j < |s| && IsDigit(s[j]) then DigitsMaxEnd(s, j + 1, max - 1) else j
  }

  method TryConsumeDigitsMax(s: string, start: int, max: nat) returns (ok: bool, j: int)
    requires 0 <= start <= |s|
    ensures j == DigitsMaxEnd(s, start, max) && ok == (j > start)
  {
    j := start;
    var count := 0;
    while j < |s| && IsDigit(s[j]) && count < max
      invariant start <= j <= |s| && count == j - start && count <= max
      invariant DigitsMaxEnd(s, j, max - count) == DigitsMaxEnd(s, start, max)
    {
      j := j + 1;
      count := count + 1;
    }
    ok := count > 0;
  }

  /** The end of the run of the character c starting at j: spaces, or the dots of an ellipsis. */
  function RunEnd(s: string, j: int, c: char): (r: int)
    requires 0 <= j <= |s|
    ensures j <= r <= |s| && (forall k :: j <= k < r ==> s[k] == c)
    ensures r == |s| || s[r] != c
    decreases |s| - j
  {
    if j < |s| && s[j] == c then RunEnd(s, j + 1, c) else j
  }

  method SkipSpaces(s: string, start: int) returns (k: int)
    requires 0 <= start <= |s|
    ensures k == RunEnd(s, start, ' ')
  {
    k := start;
    while k < |s| && s[k] == ' '
      invariant start <= k <= |s|
      invariant RunEnd(s, k, ' ') == RunEnd(s, start, ' ')
    {
      k := k + 1;
    }
  }

  // ---------------------------------------------------------------- URL-like ends

  /** A '.' between a digit and a letter, not at the start of the span (as in "y=3.Please"). */
  predicate DigitDotLetter(s: string, start: int, j: int)
    requires 0 <= start <= j < |s|
  {
    s[j] == '.' && j > start && IsDigit(s[j - 1]) && j + 1 < |s| && IsLetter(s[j + 1])
  }

  /** The first walk of ScanUrlLikeEnd: to the next white space, or before a digit-dot-letter '.'. */
  function UrlWalk(s: string, start: int, j: int): (r: int)
    requires 0 <= start <= j <= |s|
    ensures j <= r <= |s|
    ensures forall k :: j <= k < r ==> !IsWhiteSpace(s[k]) && !DigitDotLetter(s, start, k)
    ensures r == |s| || IsWhiteSpace(s[r]) || DigitDotLetter(s, start, r)
    decreases |s| - j
  {
    if j < |s| && !IsWhiteSpace(s[j]) && !DigitDotLetter(s, start, j) then UrlWalk(s, start, j + 1) else j
  }

  /** The number of occurrences of ch in s[lo..hi]. */
  function CountIn(s: string, lo: int, hi: int, ch: char): nat
    requires 0 <= lo <= hi <= |s|
    decreases hi - lo
  {
    if lo == hi then 0 else CountIn(s, lo, hi - 1, ch) + (if s[hi - 1] == ch then 1 else 0)
  }

  /** HasUnmatchedOpening over s[lo..hi]: more openers than closers (a character counts as an opener first). */
  predicate Unmatched(s: string, lo: int, hi: int, openCh: char, closeCh: char)
    requires 0 <= lo <= hi <= |s|
  {
    CountIn(s, lo, hi, openCh) > (if openCh == closeCh then 0 else CountIn(s, lo, hi, closeCh))
  }

  method HasUnmatchedOpening(s: string, lo: int, hi: int, openCh: char, closeCh: char) returns (b: bool)
    requires 0 <= lo <= hi <= |s|
    ensures b == Unmatched(s, lo, hi, openCh, closeCh)
  {
    var open, close := 0, 0;
    var k := lo;
    while k < hi
      invariant lo <= k <= hi
      invariant open == CountIn(s, lo, k, openCh)
      invariant close == (if openCh == closeCh then 0 else CountIn(s, lo, k, closeCh))
    {
      var ch := s[k];
      if ch == openCh {
        open := open + 1;
      } else if ch == closeCh {
        close := close + 1;
      }
      k := k + 1;
    }
    b := open > close;
  }

  /** A trailing closer is kept when its opener is unmatched in the span before it. */
  predicate KeepsCloser(s: string, start: int, k: int)
    requires 0 <= start < k <= |s|
  {
    var tail := s[k - 1];
    (tail == ')' && Unmatched(s, start, k - 1, '(', ')'))
    || (tail == ']' && Unmatched(s, start, k - 1, '[', ']'))
    || (tail == '}' && Unmatched(s, start, k - 1, '{', '}'))
  }

  /** The second walk of ScanUrlLikeEnd: back over terminal punctuation, keeping a balancing closer. */
  function UrlTrim(s: string, start: int, k: int): (r: int)
    requires 0 <= start <= k <= |s|
    ensures start <= r <= k
    ensures r == start || !IsUrlTerminalPunct(s[r - 1]) || KeepsCloser(s, start, r)
    decreases k
  {
    if k > start && IsUrlTerminalPunct(s[k - 1]) && !KeepsCloser(s, start, k) then UrlTrim(s, start, k - 1) else k
  }

  /** ScanUrlLikeEnd. */
  function UrlEnd(s: string, start: int): (r: int)
    requires 0 <= start <= |s|
    ensures start <= r <= |s|
  {
    UrlTrim(s, start, UrlWalk(s, start, start))
  }

  method ScanUrlLikeEnd(s: string, start: int) returns (k: int)
    requires 0 <= start <= |s|
    ensures k == UrlEnd(s, start)
  {
    var n := |s|;
    var j := start;
    while j < n && !IsWhiteSpace(s[j])
      invariant start <= j <= n
      invariant UrlWalk(s, start, j) == UrlWalk(s, start, start)
    {
      if s[j] == '.' && j > start && IsDigit(s[j - 1]) && j + 1 < n && IsLetter(s[j + 1]) {
        break;
      }
      j := j + 1;
    }
    k := TrimUrlTail(s, start, j);
  }

  /** The second walk of ScanUrlLikeEnd, from the end j of the first. */
  method TrimUrlTail(s: string, start: int, j: int) returns (k: int)
    requires 0 <= start <= j <= |s|
    ensures k == UrlTrim(s, start, j)
  {
    k := j;
    while k > start && IsUrlTerminalPunct(s[k - 1])
      invariant start <= k <= j
      invariant UrlTrim(s, start, k) == UrlTrim(s, start, j)
    {
      var keep := KeepsBalancingCloser(s, start, k);
      if keep {
        break;
      }
      UrlTrimStep(s, start, k);
      k := k - 1;
    }
  }

  lemma UrlTrimStep(s: string, start: int, k: int)
    requires 0 <= start < k <= |s| && IsUrlTerminalPunct(s[k - 1]) && !KeepsCloser(s, start, k)
    ensures UrlTrim(s, start, k) == UrlTrim(s, start, k - 1)
  {
  }

  /** The break condition of the trim loop. */
  method KeepsBalancingCloser(s: string, start: int, k: int) returns (keep: bool)
    requires 0 <= start < k <= |s|
    ensures keep == KeepsCloser(s, start, k)
  {
    var tail := s[k - 1];
    keep := false;
    if tail == ')' {
      keep := HasUnmatchedOpening(s, start, k - 1, '(', ')');
    } else if tail == ']' {
      keep := HasUnmatchedOpening(s, start, k - 1, '[', ']');
    } else if tail == '}' {
      keep := HasUnmatchedOpening(s, start, k - 1, '{', '}');
    }
  }

  // ---------------------------------------------------------------- URLs and paths

  const Schemes: seq<string> := ["http://", "https://", "ftp://", "file://"]

  lemma SchemesAreLong()
    ensures forall k :: 0 <= k < |Schemes| ==> |Schemes[k]| >= 6
  {
  }

  /** string.Compare(s, i, p, 0, |p|, ignoreCase: true) == 0, behind the length guard. */
  predicate PrefixAt(s: string, i: int, p: string)
    requires 0 <= i <= |s|
  {
    i + |p| <= |s| && CaseVariant(s[i..i + |p|], p)
  }

  /** The schemes ps from the k-th on: the first that matches at i gives the URL span. */
  function SchemeFrom(s: string, i: int, ps: seq<string>, k: int): (r: Option<int>)
    requires 0 <= i <= |s| && 0 <= k <= |ps| && forall j :: 0 <= j < |ps| ==> |ps[j]| > 0
    ensures r.Some? ==> i < r.value <= |s|
    decreases |ps| - k
  {
    if k == |ps| then None
    else if PrefixAt(s, i, ps[k]) then Some(UrlEnd(s, i + |ps[k]|))
    else SchemeFrom(s, i, ps, k + 1)
  }

  function SchemeSpan(s: string, i: int): (r: Option<int>)
    requires 0 <= i <= |s|
    ensures r.Some? ==> i < r.value <= |s|
  {
    SchemesAreLong();
    SchemeFrom(s, i, Schemes, 0)
  }

  /** The loop of StartsWithScheme over the scheme list ps. */
  method FirstSchemeSpan(s: string, i: int, ps: seq<string>) returns (found: bool, end: int)
    requires 0 <= i <= |s| && forall j :: 0 <= j < |ps| ==> |ps[j]| > 0
    ensures found == SchemeFrom(s, i, ps, 0).Some? && (found ==> end == SchemeFrom(s, i, ps, 0).value)
  {
    ghost var target := SchemeFrom(s, i, ps, 0);
    var k := 0;
    while k < |ps|
      invariant 0 <= k <= |ps|
      invariant SchemeFrom(s, i, ps, k) == target
    {
      var sch := ps[k];
      if PrefixAt(s, i, sch) {
        end := ScanUrlLikeEnd(s, i + |sch|);
        return true, end;
      }
      k := k + 1;
    }
    return false, 0;
  }

  method StartsWithScheme(s: string, i: int) returns (found: bool, end: int)
    requires 0 <= i <= |s|
    ensures found == SchemeSpan(s, i).Some? && (found ==> end == SchemeSpan(s, i).value)
  {
    SchemesAreLong();
    found, end := FirstSchemeSpan(s, i, Schemes);
  }

  function WwwSpan(s: string, i: int): (r: Option<int>)
    requires 0 <= i <= |s|
    ensures r.Some? ==> i < r.value <= |s|
  {
    if PrefixAt(s, i, "www.") then Some(UrlEnd(s, i + 4)) else None
  }

  method StartsWithWww(s: string, i: int) returns (found: bool, end: int)
    requires 0 <= i <= |s|
    ensures found == WwwSpan(s, i).Some? && (found ==> end == WwwSpan(s, i).value)
  {
    var w := "www.";
    if i + |w| <= |s| && CaseVariant(s[i..i + |w|], w) {
      end := ScanUrlLikeEnd(s, i + |w|);
      return true, end;
    }
    return false, 0;
  }

  /** A drive letter, ':' and a slash or backslash. */
  function WinPathSpan(s: string, i: int): (r: Option<int>)
    requires 0 <= i <= |s|
    ensures r.Some? ==> i < r.value <= |s|
  {
    if i + 3 <= |s| && IsLetter(s[i]) && s[i + 1] == ':' && (s[i + 2] == '\\' || s[i + 2] == '/') then Some(UrlEnd(s, i + 3))
    else None
  }

  method TryConsumeWinPath(s: string, i: int) returns (found: bool, end: int)
    requires 0 <= i <= |s|
    ensures found == WinPathSpan(s, i).Some? && (found ==> end == WinPathSpan(s, i).value)
  {
    if i + 3 <= |s| && IsLetter(s[i]) && s[i + 1] == ':' && (s[i + 2] == '\\' || s[i + 2] == '/') {
      end := ScanUrlLikeEnd(s, i + 3);
      return true, end;
    }
    return false, 0;
  }

  /** A '/' not followed by '/', a space or a newline. */
  function NixPathSpan(s: string, i: int): (r: Option<int>)
    requires 0 <= i < |s|
    ensures r.Some? ==> i < r.value <= |s|
  {
    if s[i] == '/' && !(i + 1 < |s| && (s[i + 1] == '/' || s[i + 1] == ' ' || s[i + 1] == '\n')) then Some(UrlEnd(s, i + 1))
    else None
  }

  method TryConsumeNixPath(s: string, i: int) returns (found: bool, end: int)
    requires 0 <= i < |s|
    ensures found == NixPathSpan(s, i).Some? && (found ==> end == NixPathSpan(s, i).value)
  {
    if s[i] == '/' && !(i + 1 < |s| && (s[i + 1] == '/' || s[i + 1] == ' ' || s[i + 1] == '\n')) {
      end := ScanUrlLikeEnd(s, i + 1);
      return true, end;
    }
    return false, 0;
  }

  // ---------------------------------------------------------------- e-mails and domains

  /** Where the label loop stopped, how many dots it passed, and the length of the last label. */
  datatype Labels = Labels(end: int, dots: nat, last: nat)

  /** The label loop over letters, digits, '-' and '.': None when a '.' ends an empty label. */
  function LabelScan(s: string, j: int, dots: nat, labelLen: nat): (r: Option<Labels>)
    requires 0 <= j <= |s| && labelLen <= j
    ensures r.Some? ==> j <= r.value.end <= |s| && r.value.last <= r.value.end && r.value.dots >= dots
    ensures r.Some? && r.value.dots > dots ==> r.value.end > j
    decreases |s| - j
  {
    if j < |s| && (IsLetterOrDigit(s[j]) || s[j] == '-' || s[j] == '.') then
      if s[j] == '.' then (if labelLen == 0 then None else LabelScan(s, j + 1, dots + 1, 0))
      else LabelScan(s, j + 1, dots, labelLen + 1)
    else Some(Labels(j, dots, labelLen))
  }

  /** A host name after its first character: at least one dot, no empty label, a last label of two or more letters. */
  function HostEnd(s: string, j: int): (r: Option<int>)
    requires 0 <= j <= |s|
    ensures r.Some? ==> j < r.value <= |s|
  {
    match LabelScan(s, j, 0, 0)
    case None => None
    case Some(l) =>
      if l.dots == 0 || l.last == 0 then None
      else if !AllLettersIn(s, l.end - l.last, l.end) || l.last < 2 then None
      else Some(l.end)
  }

  /** The end of the run of e-mail local-part characters starting at j. */
  function LocalEnd(s: string, j: int): (r: int)
    requires 0 <= j <= |s|
    ensures j <= r <= |s| && (forall k :: j <= k < r ==> IsEmailLocalChar(s[k]))
    ensures r == |s| || !IsEmailLocalChar(s[r])
    decreases |s| - j
  {
    if j < |s| && IsEmailLocalChar(s[j]) then LocalEnd(s, j + 1) else j
  }

  function EmailSpan(s: string, i: int): (r: Option<int>)
    requires 0 <= i < |s|
    ensures r.Some? ==> i < r.value <= |s|
  {
    if !IsEmailLocalChar(s[i]) then None
    else
      var j := LocalEnd(s, i);
      if j >= |s| || s[j] != '@' then None
      else if j + 1 >= |s| || !IsDomainLabelStart(s[j + 1]) then None
      else HostEnd(s, j + 1)
  }

  function DomainSpan(s: string, i: int): (r: Option<int>)
    requires 0 <= i < |s|
    ensures r.Some? ==> i < r.value <= |s|
  {
    if !IsDomainLabelStart(s[i]) then None else HostEnd(s, i)
  }

  /** The label loop of TryConsumeEmail and TryConsumeDomain. */
  method ScanLabels(s: string, start: int) returns (ok: bool, j: int, dots: nat, labelLen: nat)
    requires 0 <= start <= |s|
    ensures ok == LabelScan(s, start, 0, 0).Some?
    ensures ok ==> LabelScan(s, start, 0, 0).value == Labels(j, dots, labelLen)
  {
    j, dots, labelLen := start, 0, 0;
    while j < |s| && (IsLetterOrDigit(s[j]) || s[j] == '-' || s[j] == '.')
      invariant start <= j <= |s| && labelLen <= j
      invariant LabelScan(s, j, dots, labelLen) == LabelScan(s, start, 0, 0)
    {
      if s[j] == '.' {
        if labelLen == 0 {
          return false, j, dots, labelLen;
        }
        dots := dots + 1;
        labelLen := 0;
      } else {
        labelLen := labelLen + 1;
      }
      j := j + 1;
    }
    ok := true;
  }

  /** The top-level-domain loop: letters only, stopping at the first that is not. */
  method LettersOnly(s: string, lo: int, hi: int) returns (b: bool)
    requires 0 <= lo <= hi <= |s|
    ensures b == AllLettersIn(s, lo, hi)
  {
    var k := lo;
    while k < hi
      invariant lo <= k <= hi
      invariant AllLettersIn(s, lo, k)
    {
      if !IsLetter(s[k]) {
        return false;
      }
      k := k + 1;
    }
    return true;
  }

  /** The host part shared by e-mails and domains. */
  method ScanHost(s: string, start: int) returns (found: bool, end: int)
    requires 0 <= start <= |s|
    ensures found == HostEnd(s, start).Some? && (found ==> end == HostEnd(s, start).value)
  {
    var ok, j, dots, labelLen := ScanLabels(s, start);
    if !ok || dots == 0 || labelLen == 0 {
      return false, 0;
    }
    var tldLettersOnly := LettersOnly(s, j - labelLen, j);
    if !tldLettersOnly || labelLen < 2 {
      return false, 0;
    }
    return true, j;
  }

  method TryConsumeEmail(s: string, i: int) returns (found: bool, end: int)
    requires 0 <= i < |s|
    ensures found == EmailSpan(s, i).Some? && (found ==> end == EmailSpan(s, i).value)
  {
    var n := |s|;
    var j := i;
    if !IsEmailLocalChar(s[j]) {
      return false, 0;
    }
    while j < n && IsEmailLocalChar(s[j])
      invariant i <= j <= n
      invariant LocalEnd(s, j) == LocalEnd(s, i)
    {
      j := j + 1;
    }
    if j >= n || s[j] != '@' {
      return false, 0;
    }
    j := j + 1;
    if j >= n || !IsDomainLabelStart(s[j]) {
      return false, 0;
    }
    found, end := ScanHost(s, j);
  }

  method TryConsumeDomain(s: string, i: int) returns (found: bool, end: int)
    requires 0 <= i < |s|
    ensures found == DomainSpan(s, i).Some? && (found ==> end == DomainSpan(s, i).value)
  {
    if !IsDomainLabelStart(s[i]) {
      return false, 0;
    }
    found, end := ScanHost(s, i);
  }

  // ---------------------------------------------------------------- versions, decimals, times

  /** The '.'-digits groups after the first number: where they end and how many there are. */
  function VersionTail(s: string, j: int, groups: nat): (r: (int, nat))
    requires 0 <= j <= |s|
    ensures j <= r.0 <= |s| && r.1 >= groups
    ensures r.1 > groups ==> r.0 > j
    decreases |s| - j
  {
    if j < |s| && s[j] == '.' then
      var e := DigitsEnd(s, j + 1);
      if e == j + 1 then (j, groups) else VersionTail(s, e, groups + 1)
    else (j, groups)
  }

  /** An optional 'v' or 'V', digits, and one or more '.'-digits groups. */
  function VersionSpan(s: string, i: int): (r: Option<int>)
    requires 0 <= i < |s|
    ensures r.Some? ==> i < r.value <= |s|
  {
    var j := if s[i] == 'v' || s[i] == 'V' then i + 1 else i;
    var e := DigitsEnd(s, j);
    if e == j then None
    else
      var (end, groups) := VersionTail(s, e, 0);
      if groups == 0 then None else Some(end)
  }

  method TryConsumeVersion(s: string, i: int) returns (found: bool, end: int)
    requires 0 <= i < |s|
    ensures found == VersionSpan(s, i).Some? && (found ==> end == VersionSpan(s, i).value)
  {
    var n := |s|;
    var j := i;
    if s[j] == 'v' || s[j] == 'V' {
      j := j + 1;
    }
    var groups := 0;
    var ok;
    ok, j := TryConsumeDigits(s, j);
    if !ok {
      return false, 0;
    }
    ghost var e := j;
    while j < n && s[j] == '.'
      invariant e <= j <= n
      invariant VersionTail(s, j, groups) == VersionTail(s, e, 0)
    {
      var save := j;
      j := j + 1;
      ok, j := TryConsumeDigits(s, j);
      if !ok {
        j := save;
        break;
      }
      groups := groups + 1;
    }
    if groups == 0 {
      return false, 0;
    }
    return true, j;
  }

  /** The thousands loop: ','-digits groups, each ',' followed by a digit. */
  function Thousands(s: string, j: int): (r: int)
    requires 0 <= j <= |s|
    ensures j <= r <= |s|
    ensures !(r < |s| && s[r] == ',' && r + 1 < |s| && IsDigit(s[r + 1]))
    decreases |s| - j
  {
    if j < |s| && s[j] == ',' && j + 1 < |s| && IsDigit(s[j + 1]) then Thousands(s, DigitsEnd(s, j + 1)) else j
  }

  /** Digits, ','-digits thousands groups, then '.' or ',' and digits. */
  function DecimalSpan(s: string, i: int): (r: Option<int>)
    requires 0 <= i < |s|
    ensures r.Some? ==> i < r.value <= |s|
  {
    var e := DigitsEnd(s, i);
    if e == i then None
    else
      var j := Thousands(s, e);
      if j < |s| && (s[j] == '.' || s[j] == ',') then
        var f := DigitsEnd(s, j + 1);
        if f > j + 1 then Some(f) else None
      else None
  }

  method TryConsumeDecimal(s: string, i: int) returns (found: bool, end: int)
    requires 0 <= i < |s|
    ensures found == DecimalSpan(s, i).Some? && (found ==> end == DecimalSpan(s, i).value)
  {
    var ok, j := TryConsumeDigits(s, i);
    if !ok {
      return false, 0;
    }
    ghost var e := j;
    while j < |s| && s[j] == ',' && j + 1 < |s| && IsDigit(s[j + 1])
      invariant e <= j <= |s|
      invariant Thousands(s, j) == Thousands(s, e)
    {
      j := j + 1;
      ok, j := TryConsumeDigits(s, j);
      if !ok {
        break;
      }
    }
    if j < |s| && (s[j] == '.' || s[j] == ',') {
      var save := j;
      j := j + 1;
      ok, j := TryConsumeDigits(s, j);
      if ok {
        return true, j;
      }
      j := save;
    }
    return false, 0;
  }

  predicate IsAmPmLetter(c: char) { c == 'a' || c == 'A' || c == 'p' || c == 'P' }

  predicate IsM(c: char) { c == 'm' || c == 'M' }

  /** After the minutes: an optional ':ss'. */
  function SecondsEnd(s: string, b: int): (r: int)
    requires 0 <= b <= |s|
    ensures r == b || r == b + 3
    ensures r <= |s|
  {
    if b + 2 < |s| && s[b] == ':' && IsDigit(s[b + 1]) && IsDigit(s[b + 2]) then b + 3 else b
  }

  /** Then an optional am/pm, after any spaces. */
  function AmPmEnd(s: string, j: int): (r: int)
    requires 0 <= j <= |s|
    ensures j <= r <= |s|
  {
    var k := RunEnd(s, j, ' ');
    if k + 1 < |s| && IsAmPmLetter(s[k]) && IsM(s[k + 1]) then k + 2 else j
  }

  /** One or two digits, ':', one or two digits, an optional ':ss' and an optional am/pm. */
  function TimeSpan(s: string, i: int): (r: Option<int>)
    requires 0 <= i < |s|
    ensures r.Some? ==> i < r.value <= |s|
  {
    var a := DigitsMaxEnd(s, i, 2);
    if a == i || a >= |s| || s[a] != ':' then None
    else
      var b := DigitsMaxEnd(s, a + 1, 2);
      if b == a + 1 then None
      else Some(AmPmEnd(s, SecondsEnd(s, b)))
  }

  method TryConsumeTimeOrRatio(s: string, i: int) returns (found: bool, end: int)
    requires 0 <= i < |s|
    ensures found == TimeSpan(s, i).Some? && (found ==> end == TimeSpan(s, i).value)
  {
    var n := |s|;
    var ok, j := TryConsumeDigitsMax(s, i, 2);
    if !ok {
      return false, 0;
    }
    if j >= n || s[j] != ':' {
      return false, 0;
    }
    j := j + 1;
    ok, j := TryConsumeDigitsMax(s, j, 2);
    if !ok {
      return false, 0;
    }
    ghost var b := j;
    if j + 2 < n && s[j] == ':' && IsDigit(s[j + 1]) && IsDigit(s[j + 2]) {
      j := j + 3;
    }
    ghost var c := j;
    var k := SkipSpaces(s, j);
    if k + 1 < n && (s[k] == 'a' || s[k] == 'A' || s[k] == 'p' || s[k] == 'P') && (s[k + 1] == 'm' || s[k + 1] == 'M') {
      j := k + 2;
    }
    assert c == SecondsEnd(s, b) && j == AmPmEnd(s, c);
    TimeSpanParts(s, i, b);
    return true, j;
  }

  lemma TimeSpanParts(s: string, i: int, b: int)
    requires 0 <= i < |s|
    requires var a := DigitsMaxEnd(s, i, 2); a > i && a < |s| && s[a] == ':' && b == DigitsMaxEnd(s, a + 1, 2) && b > a + 1
    ensures TimeSpan(s, i) == Some(AmPmEnd(s, SecondsEnd(s, b)))
  {
  }

  // ---------------------------------------------------------------- ellipses and dotted abbreviations

  /** The ellipsis character, or three or more dots. */
  function EllipsisSpan(s: string, i: int): (r: Option<int>)
    requires 0 <= i < |s|
    ensures r.Some? ==> i < r.value <= |s|
  {
    if s[i] == '\U{2026}' then Some(i + 1)
    else if i + 2 < |s| && s[i] == '.' && s[i + 1] == '.' && s[i + 2] == '.' then Some(RunEnd(s, i + 3, '.'))
    else None
  }

  method TryConsumeEllipsis(s: string, i: int) returns (found: bool, end: int)
    requires 0 <= i < |s|
    ensures found == EllipsisSpan(s, i).Some? && (found ==> end == EllipsisSpan(s, i).value)
  {
    if s[i] == '\U{2026}' {
      return true, i + 1;
    }
    if i + 2 < |s| && s[i] == '.' && s[i + 1] == '.' && s[i + 2] == '.' {
      var j := i + 3;
      while j < |s| && s[j] == '.'
        invariant i + 3 <= j <= |s|
        invariant RunEnd(s, j, '.') == RunEnd(s, i + 3, '.')
      {
        j := j + 1;
      }
      return true, j;
    }
    return false, 0;
  }

  /** Letter-dot pairs from j on: where they end and how many there are. */
  function DottedRun(s: string, j: int, groups: nat): (r: (int, nat))
    requires 0 <= j <= |s|
    ensures j <= r.0 <= |s| && r.1 >= groups && r.0 - j == 2 * (r.1 - groups)
    decreases |s| - j
  {
    if j + 1 < |s| && IsAsciiLetter(s[j]) && s[j + 1] == '.' then DottedRun(s, j + 2, groups + 1) else (j, groups)
  }

  /** Two or more letter-dot pairs: U.S.A., e.g., i.e. */
  function DottedAbbrevSpan(s: string, i: int): (r: Option<int>)
    requires 0 <= i < |s|
    ensures r.Some? ==> i < r.value <= |s|
  {
    var (e, groups) := DottedRun(s, i, 0);
    if groups >= 2 then Some(e) else None
  }

  method TryConsumeDottedAbbrev(s: string, i: int) returns (found: bool, end: int)
    requires 0 <= i < |s|
    ensures found == DottedAbbrevSpan(s, i).Some? && (found ==> end == DottedAbbrevSpan(s, i).value)
  {
    var n, j, groups := |s|, i, 0;
    while j + 1 < n && IsAsciiLetter(s[j]) && s[j + 1] == '.'
      invariant i <= j <= n
      invariant DottedRun(s, j, groups) == DottedRun(s, i, 0)
    {
      groups := groups + 1;
      j := j + 2;
    }
    if groups >= 2 {
      return true, j;
    }
    return false, 0;
  }

  // ---------------------------------------------------------------- code spans

  /** The search for the closing fence of a ``` block, from j. */
  function FenceScan(s: string, j: int): (r: int)
    requires 0 <= j <= |s|
    ensures j <= r <= |s|
    ensures r + 2 >= |s| || (s[r] == '`' && s[r + 1] == '`' && s[r + 2] == '`')
    decreases |s| - j
  {
    if j + 2 < |s| && !(s[j] == '`' && s[j + 1] == '`' && s[j + 2] == '`') then FenceScan(s, j + 1) else j
  }

  /** The search for the end of an inline `code` span, from j: a backtick or a newline. */
  function InlineScan(s: string, j: int): (r: int)
    requires 0 <= j <= |s|
    ensures j <= r <= |s| && (forall k :: j <= k < r ==> s[k] != '`' && s[k] != '\n')
    ensures r == |s| || s[r] == '`' || s[r] == '\n'
    decreases |s| - j
  {
    if j < |s| && s[j] != '`' && s[j] != '\n' then InlineScan(s, j + 1) else j
  }

  /** A ``` block through its closing fence (or the end), or an inline span through its backtick. */
  function CodeSpanEnd(s: string, i: int): (r: int)
    requires 0 <= i < |s| && s[i] == '`'
    ensures i < r <= |s|
  {
    if i + 2 < |s| && s[i + 1] == '`' && s[i + 2] == '`' then
      var j := FenceScan(s, i + 3);
      if j + 3 < |s| then j + 3 else |s|
    else
      var j := InlineScan(s, i + 1);
      if j < |s| && s[j] == '`' then j + 1 else j
  }

  method ScanCodeSpan(s: string, i: int) returns (j: int)
    requires 0 <= i < |s| && s[i] == '`'
    ensures j == CodeSpanEnd(s, i)
  {
    var n := |s|;
    if i + 2 < n && s[i + 1] == '`' && s[i + 2] == '`' {
      j := i + 3;
      while j + 2 < n && !(s[j] == '`' && s[j + 1] == '`' && s[j + 2] == '`')
        invariant i + 3 <= j <= n
        invariant FenceScan(s, j) == FenceScan(s, i + 3)
      {
        j := j + 1;
      }
      j := if j + 3 < n then j + 3 else n;
    } else {
      j := i + 1;
      while j < n && s[j] != '`' && s[j] != '\n'
        invariant i + 1 <= j <= n
        invariant InlineScan(s, j) == InlineScan(s, i + 1)
      {
        j := j + 1;
      }
      if j < n && s[j] == '`' {
        j := j + 1;
      }
    }
  }

  // ---------------------------------------------------------------- the recognisers in order

  /** Steps 2 to 4 of the scan: the first of URL, www., paths, e-mail, domain, version, decimal, time that accepts. */
  function ProtectedSpan(s: string, i: int): (r: Option<int>)
    requires 0 <= i < |s|
    ensures r.Some? ==> i < r.value <= |s|
  {
    var a := SchemeSpan(s, i);
    if a.Some? then a else
    var b := WwwSpan(s, i);
    if b.Some? then b else
    var c := WinPathSpan(s, i);
    if c.Some? then c else
    var d := NixPathSpan(s, i);
    if d.Some? then d else
    var e := EmailSpan(s, i);
    if e.Some? then e else
    var f := DomainSpan(s, i);
    if f.Some? then f else
    var g := VersionSpan(s, i);
    if g.Some? then g else
    var h := DecimalSpan(s, i);
    if h.Some? then h else
    TimeSpan(s, i)
  }

  method TryProtectedSpan(s: string, i: int) returns (found: bool, end: int)
    requires 0 <= i < |s|
    ensures found == ProtectedSpan(s, i).Some? && (found ==> end == ProtectedSpan(s, i).value)
  {
    found, end := StartsWithScheme(s, i);
    if found { return; }
    found, end := StartsWithWww(s, i);
    if found { return; }
    found, end := TryConsumeWinPath(s, i);
    if found { return; }
    found, end := TryConsumeNixPath(s, i);
    if found { return; }
    found, end := TryConsumeEmail(s, i);
    if found { return; }
    found, end := TryConsumeDomain(s, i);
    if found { return; }
    found, end := TryConsumeVersion(s, i);
    if found { return; }
    found, end := TryConsumeDecimal(s, i);
    if found { return; }
    found, end := TryConsumeTimeOrRatio(s, i);
  }
}
