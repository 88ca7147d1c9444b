/**
 * What the counts mean: lines are the pieces that join back to the text,
 * words are the places where a word starts, paragraphs are the non-blank
 * lines, and sentences are the non-blank pieces between sentence breaks.
 */
module CounterFacts {
  import opened Chars
  import opened Counter

  // ---------------------------------------------------------------- splits

  /** The pieces of a split, joined back with the separator between them. */
  function Join(ps: seq<string>, sep: char): string
    requires |ps| >= 1
  {
    if |ps| == 1 then ps[0] else ps[0] + [sep] + Join(ps[1..], sep)
  }

  lemma {:induction false} SplitFirst(s: string, seps: set<char>)
    ensures Split(s, seps)[0] == [] <==> (s == [] || s[0] in seps)
  {
  }

  /** A split on one character has one piece more than there are separators. */
  lemma {:induction false} SplitCount(s: string, c: char)
    ensures |Split(s, {c})| == 1 + multiset(s)[c]
    decreases |s|
  {
    if s != [] {
      SplitCount(s[1..], c);
      assert s == [s[0]] + s[1..];
      assert multiset(s) == multiset{s[0]} + multiset(s[1..]);
    }
  }

  /** No piece of a split holds a separator. */
  lemma {:induction false} SplitNoSep(s: string, c: char)
    ensures forall i :: 0 <= i < |Split(s, {c})| ==> c !in Split(s, {c})[i]
    decreases |s|
  {
    if s != [] {
      SplitNoSep(s[1..], c);
    }
  }

  lemma JoinCons(p: string, ps: seq<string>, c: char)
    requires |ps| >= 1
    ensures Join([p] + ps, c) == p + [c] + Join(ps, c)
  {
    assert ([p] + ps)[1..] == ps;
  }

  /** Putting a character in front of the first piece puts it in front of the join. */
  lemma JoinExtendHead(x: char, ps: seq<string>, c: char)
    requires |ps| >= 1
    ensures Join([[x] + ps[0]] + ps[1..], c) == [x] + Join(ps, c)
  {
    if |ps| > 1 {
      JoinCons([x] + ps[0], ps[1..], c);
      assert ps == [ps[0]] + ps[1..];
      JoinCons(ps[0], ps[1..], c);
    }
  }

  /** The pieces of a split on one character join back to the text. */
  lemma {:induction false} SplitJoin(s: string, c: char)
    ensures Join(Split(s, {c}), c) == s
    decreases |s|
  {
    if s != [] {
      var rest := Split(s[1..], {c});
      SplitJoin(s[1..], c);
      if s[0] == c {
        JoinCons([], rest, c);
      } else {
        JoinExtendHead(s[0], rest, c);
      }
      assert s == [s[0]] + s[1..];
    }
  }

  /** The lines of a text are one more than its line feeds, contain none, and joined with line feeds give the text back. */
  lemma LineBreaksAreLines(t: string)
    ensures CountLineBreaks(t) == 1 + multiset(t)['\n']
    ensures Join(Split(t, {'\n'}), '\n') == t
    ensures forall i :: 0 <= i < |Split(t, {'\n'})| ==> '\n' !in Split(t, {'\n'})[i]
  {
    SplitCount(t, '\n');
    SplitJoin(t, '\n');
    SplitNoSep(t, '\n');
  }

  // ---------------------------------------------------------------- words

  /** Word starts: characters that are not separators and follow a separator or the start (afterSep). */
  function Starts(s: string, seps: set<char>, afterSep: bool): nat
    decreases |s|
  {
    if s == [] then 0
    else (if s[0] !in seps && afterSep then 1 else 0) + Starts(s[1..], seps, s[0] in seps)
  }

  lemma {:induction false} NonEmptyPiecesAreStarts(s: string, seps: set<char>)
    ensures NonEmptyCount(Split(s, seps)) == Starts(s, seps, true)
    decreases |s|
  {
    if s != [] {
      var rest := Split(s[1..], seps);
      NonEmptyPiecesAreStarts(s[1..], seps);
      if s[0] !in seps {
        SplitFirst(s[1..], seps);
        assert NonEmptyCount(rest) == (if rest[0] == [] then 0 else 1) + NonEmptyCount(rest[1..]);
      }
    }
  }

  /** The number of words is the number of word starts. */
  lemma WordsAreWordStarts(t: string)
    ensures CountWords(t) == Starts(t, WordSeparators, true)
  {
    NonEmptyPiecesAreStarts(t, WordSeparators);
  }

  lemma {:induction false} StartsBounds(s: string, seps: set<char>, afterSep: bool)
    ensures Starts(s, seps, afterSep) <= |s|
    ensures afterSep ==> (Starts(s, seps, afterSep) == 0 <==> forall k :: 0 <= k < |s| ==> s[k] in seps)
    decreases |s|
  {
    if s != [] {
      StartsBounds(s[1..], seps, s[0] in seps);
      if afterSep && s[0] in seps {
        assert forall k :: 1 <= k < |s| ==> s[k] == s[1..][k - 1];
      }
    }
  }

  /** There are no more words than characters, and none at all exactly when the text is only separators. */
  lemma WordsBounds(t: string)
    ensures CountWords(t) <= CountCharacters(t)
    ensures CountWords(t) == 0 <==> forall k :: 0 <= k < |t| ==> t[k] in WordSeparators
  {
    WordsAreWordStarts(t);
    StartsBounds(t, WordSeparators, true);
  }

  // ---------------------------------------------------------------- blank pieces

  lemma {:induction false} NonBlankConcat(a: seq<string>, b: seq<string>)
    ensures NonBlankCount(a + b) == NonBlankCount(a) + NonBlankCount(b)
    decreases |b|
  {
    if b != [] {
      assert (a + b)[..|a + b| - 1] == a + b[..|b| - 1];
      assert (a + b)[|a + b| - 1] == b[|b| - 1];
      NonBlankConcat(a, b[..|b| - 1]);
    } else {
      assert a + b == a;
    }
  }

  lemma NonBlankFront(p: string, ps: seq<string>)
    ensures NonBlankCount([p] + ps) == (if IsBlank(p) then 0 else 1) + NonBlankCount(ps)
  {
    NonBlankConcat([p], ps);
    assert [p][..0] == [];
  }

  lemma {:induction false} NonBlankAtMostPieces(ps: seq<string>)
    ensures NonBlankCount(ps) <= |ps|
    decreases |ps|
  {
    if ps != [] {
      NonBlankAtMostPieces(ps[..|ps| - 1]);
    }
  }

  // ---------------------------------------------------------------- paragraphs

  lemma {:induction false} SplitRunsFirst(s: string, c: char)
    ensures SplitRuns(s, {c})[0] == Split(s, {c})[0]
    decreases |s|
  {
    if s != [] {
      SplitRunsFirst(s[1..], c);
    }
  }

  lemma {:induction false} RunsKeepNonBlank(s: string, c: char)
    ensures NonBlankCount(SplitRuns(s, {c})) == NonBlankCount(Split(s, {c}))
    decreases |s|
  {
    if s != [] {
      var runs := SplitRuns(s[1..], {c});
      var lines := Split(s[1..], {c});
      RunsKeepNonBlank(s[1..], c);
      if s[0] == c {
        NonBlankFront([], lines);
        if !(|s| > 1 && s[1] == c) {
          NonBlankFront([], runs);
        }
      } else {
        SplitRunsFirst(s[1..], c);
        assert runs == [runs[0]] + runs[1..];
        assert lines == [lines[0]] + lines[1..];
        NonBlankFront(runs[0], runs[1..]);
        NonBlankFront(lines[0], lines[1..]);
        NonBlankFront([s[0]] + runs[0], runs[1..]);
        NonBlankFront([s[0]] + lines[0], lines[1..]);
      }
    }
  }

  /** A paragraph is a non-blank line: runs of line feeds only add empty pieces. */
  lemma ParagraphsAreNonBlankLines(t: string)
    ensures CountParagraphs(t) == NonBlankCount(Split(t, {'\n'}))
    ensures CountParagraphs(t) <= CountLineBreaks(t)
  {
    RunsKeepNonBlank(t, '\n');
    NonBlankAtMostPieces(Split(t, {'\n'}));
  }

  lemma BlankCons(c: char, p: string)
    ensures IsBlank([c] + p) <==> IsWhiteSpace(c) && IsBlank(p)
  {
    var q := [c] + p;
    if IsBlank(q) {
      assert IsWhiteSpace(q[0]);
      forall k | 0 <= k < |p|
        ensures IsWhiteSpace(p[k])
      {
        assert q[k + 1] == p[k];
      }
    }
    if IsWhiteSpace(c) && IsBlank(p) {
      forall k | 0 <= k < |q|
        ensures IsWhiteSpace(q[k])
      {
        if k > 0 {
          assert q[k] == p[k - 1];
        }
      }
    }
  }

  lemma {:induction false} LinesBlank(s: string)
    ensures NonBlankCount(Split(s, {'\n'})) == 0 <==> IsBlank(s)
    decreases |s|
  {
    if s != [] {
      var lines := Split(s[1..], {'\n'});
      LinesBlank(s[1..]);
      assert s == [s[0]] + s[1..];
      BlankCons(s[0], s[1..]);
      if s[0] == '\n' {
        NonBlankFront([], lines);
      } else {
        assert lines == [lines[0]] + lines[1..];
        NonBlankFront(lines[0], lines[1..]);
        NonBlankFront([s[0]] + lines[0], lines[1..]);
        BlankCons(s[0], lines[0]);
      }
    }
  }

  /** There are no paragraphs exactly when the text is blank. */
  lemma NoParagraphsIffBlank(t: string)
    ensures CountParagraphs(t) == 0 <==> IsBlank(t)
  {
    ParagraphsAreNonBlankLines(t);
    LinesBlank(t);
  }

  // ---------------------------------------------------------------- sentences

  /** The sentence breaks at or after k. */
  function Breaks(s: string, k: int): nat
    requires 0 <= k <= |s|
    decreases |s| - k
  {
    if k == |s| then 0 else (if IsBreak(s, k) then 1 else 0) + Breaks(s, k + 1)
  }

  /** Inside a run of white space no break starts: each position follows white space. */
  lemma {:induction false} NoBreakInRun(s: string, j: int, e: int)
    requires 0 < j <= e <= |s| && (forall m :: j - 1 <= m < e ==> IsWhiteSpace(s[m]))
    ensures Breaks(s, j) == Breaks(s, e)
    decreases e - j
  {
    if j < e {
      NoBreakInRun(s, j + 1, e);
    }
  }

  lemma {:induction false} PiecesCount(s: string, lo: int, k: int)
    requires 0 <= lo <= k <= |s|
    ensures |PiecesFrom(s, lo, k)| == 1 + Breaks(s, k)
    decreases |s| - k
  {
    if k < |s| {
      if IsBreak(s, k) {
        var e := WhiteEnd(s, k);
        PiecesCount(s, e, e);
        NoBreakInRun(s, k + 1, e);
      } else {
        PiecesCount(s, lo, k + 1);
      }
    }
  }

  predicate BlankIn(s: string, lo: int, hi: int)
    requires 0 <= lo <= hi <= |s|
  {
    forall m :: lo <= m < hi ==> IsWhiteSpace(s[m])
  }

  lemma {:induction false} PiecesBlank(s: string, lo: int, k: int)
    requires 0 <= lo <= k <= |s|
    ensures NonBlankCount(PiecesFrom(s, lo, k)) == 0 <==> BlankIn(s, lo, |s|)
    decreases |s| - k
  {
    if k == |s| {
      assert IsBlank(s[lo..]) <==> BlankIn(s, lo, |s|) by {
        assert forall m :: lo <= m < |s| ==> s[m] == s[lo..][m - lo];
      }
      NonBlankFront(s[lo..], []);
    } else if IsBreak(s, k) {
      var e := WhiteEnd(s, k);
      PiecesBlank(s, e, e);
      assert IsBlank(s[lo..k]) <==> BlankIn(s, lo, k) by {
        assert forall m :: lo <= m < k ==> s[m] == s[lo..k][m - lo];
      }
      NonBlankFront(s[lo..k], PiecesFrom(s, e, e));
    } else {
      PiecesBlank(s, lo, k + 1);
    }
  }

  /**
   * There are no more sentences than sentence breaks plus one, and none at
   * all exactly when the text is blank.
   */
  lemma SentencesBounds(t: string)
    ensures NonBlankCount(SentencePieces(t)) <= 1 + Breaks(t, 0)
    ensures NonBlankCount(SentencePieces(t)) == 0 <==> IsBlank(t)
  {
    PiecesCount(t, 0, 0);
    NonBlankAtMostPieces(SentencePieces(t));
    PiecesBlank(t, 0, 0);
  }

  /** No piece holds a sentence end followed by white space: every break was split. */
  predicate NoInnerBreak(p: string)
  {
    forall j :: 0 < j < |p| ==> !(IsSentenceEnd(p[j - 1]) && IsWhiteSpace(p[j]))
  }

  /** Every piece is free of breaks; every piece but the last ends with a sentence end. */
  predicate PiecesOk(r: seq<string>)
  {
    && (forall i :: 0 <= i < |r| ==> NoInnerBreak(r[i]))
    && (forall i :: 0 <= i < |r| - 1 ==> |r[i]| > 0 && IsSentenceEnd(r[i][|r[i]| - 1]))
  }

  lemma {:induction false} PiecesShape(s: string, lo: int, k: int)
    requires 0 <= lo <= k <= |s|
    requires lo == 0 || IsWhiteSpace(s[lo - 1])
    requires forall j :: lo < j < k ==> !IsBreak(s, j)
    ensures PiecesOk(PiecesFrom(s, lo, k))
    decreases |s| - k
  {
    if k == |s| {
      assert NoInnerBreak(s[lo..]) by {
        forall j | 0 < j < |s| - lo
          ensures !(IsSentenceEnd(s[lo..][j - 1]) && IsWhiteSpace(s[lo..][j]))
        {
          assert !IsBreak(s, lo + j);
        }
      }
    } else if IsBreak(s, k) {
      var e := WhiteEnd(s, k);
      PiecesShape(s, e, e);
      var p := s[lo..k];
      assert NoInnerBreak(p) by {
        forall j | 0 < j < |p|
          ensures !(IsSentenceEnd(p[j - 1]) && IsWhiteSpace(p[j]))
        {
          assert !IsBreak(s, lo + j);
        }
      }
      assert |p| > 0 && IsSentenceEnd(p[|p| - 1]);
      var rest := PiecesFrom(s, e, e);
      assert PiecesFrom(s, lo, k) == [p] + rest;
      assert forall i :: 1 <= i < 1 + |rest| ==> ([p] + rest)[i] == rest[i - 1];
    } else {
      PiecesShape(s, lo, k + 1);
      assert PiecesFrom(s, lo, k) == PiecesFrom(s, lo, k + 1);
    }
  }

  /**
   * Every sentence piece is free of sentence breaks, and every piece but
   * the last ends with a '.', '!' or '?'.
   */
  lemma SentencePiecesShape(t: string)
    ensures PiecesOk(SentencePieces(t))
  {
    PiecesShape(t, 0, 0);
  }
}
