/**
 * The text statistics. Every count is a count of the pieces some split of
 * the text produces, as the editor shows them beside the text: characters,
 * words, lines, paragraphs and sentences.
 */
module Counter {
  import opened Chars

  /**
   * The pieces of s between single separator characters, as String.Split
   * returns them: one more piece than there are separators, empty pieces
   * included.
   */
  function Split(s: string, seps: set<char>): (r: seq<string>)
    ensures |r| >= 1
    decreases |s|
  {
    if s == [] then [[]]
    else
      var rest := Split(s[1..], seps);
      if s[0] in seps then [[]] + rest else [[s[0]] + rest[0]] + rest[1..]
  }

  /**
   * The pieces of s between maximal runs of separator characters, as a
   * regular-expression split on one-or-more separators returns them: a run
   * at the start or the end leaves an empty piece there.
   */
  function SplitRuns(s: string, seps: set<char>): (r: seq<string>)
    ensures |r| >= 1
    decreases |s|
  {
    if s == [] then [[]]
    else
      var rest := SplitRuns(s[1..], seps);
      if s[0] in seps then (if |s| > 1 && s[1] in seps then rest else [[]] + rest)
      else [[s[0]] + rest[0]] + rest[1..]
  }

  /** string.IsNullOrWhiteSpace on a string that is not null. */
  predicate IsBlank(p: string)
  {
    forall k :: 0 <= k < |p| ==> IsWhiteSpace(p[k])
  }

  /** How many pieces are not empty: the length of a split that removes empty entries. */
  function NonEmptyCount(ps: seq<string>): (r: nat)
    ensures r <= |ps|
    ensures r == 0 <==> forall i :: 0 <= i < |ps| ==> ps[i] == []
  {
    if ps == [] then 0 else (if ps[0] == [] then 0 else 1) + NonEmptyCount(ps[1..])
  }

  /** How many pieces are not blank. */
  function NonBlankCount(ps: seq<string>): (r: nat)
    ensures r <= |ps|
  {
    if ps == [] then 0 else NonBlankCount(ps[..|ps| - 1]) + (if IsBlank(ps[|ps| - 1]) then 0 else 1)
  }

  const WordSeparators: set<char> := {' ', '\t', '\n', '\r'}

  /** The non-empty pieces between spaces, tabs, line feeds and carriage returns. */
  function CountWords(text: string): (r: nat)
    ensures r <= |Split(text, WordSeparators)|
    ensures r == 0 <==> forall i :: 0 <= i < |Split(text, WordSeparators)| ==> Split(text, WordSeparators)[i] == []
  {
    NonEmptyCount(Split(text, WordSeparators))
  }

  /** The length of the text in characters. */
  function CountCharacters(text: string): (r: nat)
    ensures r == |text|
  {
    |text|
  }

  /** The non-blank pieces between runs of line feeds. */
  function CountParagraphs(text: string): (r: nat)
    ensures r <= |SplitRuns(text, {'\n'})|
  {
    NonBlankCount(SplitRuns(text, {'\n'}))
  }

  /** The pieces between line feeds, that is, the lines. */
  function CountLineBreaks(text: string): (r: nat)
    ensures r >= 1
  {
    |Split(text, {'\n'})|
  }

  // ---------------------------------------------------------------- sentences

  predicate IsSentenceEnd(c: char) { c == '.' || c == '!' || c == '?' }

  /** A sentence break starts at k: white space right after a '.', '!' or '?'. */
  predicate IsBreak(s: string, k: int)
    requires 0 <= k < |s|
  {
    k > 0 && IsSentenceEnd(s[k - 1]) && IsWhiteSpace(s[k])
  }

  /** The end of the run of white space starting at k. */
  function WhiteEnd(s: string, k: int): (r: int)
    requires 0 <= k <= |s|
    ensures k <= r <= |s| && (forall j :: k <= j < r ==> IsWhiteSpace(s[j]))
    ensures r == |s| || !IsWhiteSpace(s[r])
    decreases |s| - k
  {
    if k < |s| && IsWhiteSpace(s[k]) then WhiteEnd(s, k + 1) else k
  }

  /**
   * The split of s at every whole run of white space that follows a
   * sentence end (the regular expression "(?<=[.!?])\s+"). The current
   * piece started at lo and the scan is at k.
   */
  function PiecesFrom(s: string, lo: int, k: int): (r: seq<string>)
    requires 0 <= lo <= k <= |s|
    ensures |r| >= 1
    decreases |s| - k
  {
    if k == |s| then [s[lo..]]
    else if IsBreak(s, k) then
      var e := WhiteEnd(s, k);
      [s[lo..k]] + PiecesFrom(s, e, e)
    else PiecesFrom(s, lo, k + 1)
  }

  function SentencePieces(s: string): (r: seq<string>)
    ensures |r| >= 1
  {
    PiecesFrom(s, 0, 0)
  }

  /** Counts the non-blank pieces of the sentence split, one by one. */
  method CountSentences(text: string) returns (count: nat)
    ensures count == NonBlankCount(SentencePieces(text))
  {
    var sentences := SentencePieces(text);
    count := 0;
    for i := 0 to |sentences|
      invariant count == NonBlankCount(sentences[..i])
    {
      assert sentences[..i + 1][..i] == sentences[..i];
      if !IsBlank(sentences[i]) {
        count := count + 1;
      }
    }
    assert sentences[..|sentences|] == sentences;
  }
}
