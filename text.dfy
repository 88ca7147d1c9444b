/**
 * Newline unification shared by the three engines: every engine first
 * rewrites its input with s.Replace("\r\n", "\n").Replace("\r", "\n").
 */
module Text {

  /** s.Replace("\r\n", "\n"): a left-to-right, non-overlapping replacement. */
  function ReplaceCrLf(s: string): (r: string)
    ensures |r| <= |s|
    decreases |s|
  {
    if |s| == 0 then []
    else if |s| >= 2 && s[0] == '\r' && s[1] == '\n' then "\n" + ReplaceCrLf(s[2..])
    else [s[0]] + ReplaceCrLf(s[1..])
  }

  /** s.Replace("\r", "\n"). */
  function ReplaceCr(s: string): (r: string)
    ensures |r| == |s|
    ensures forall k :: 0 <= k < |s| ==> r[k] == (if s[k] == '\r' then '\n' else s[k])
  {
    seq(|s|, k requires 0 <= k < |s| => if s[k] == '\r' then '\n' else s[k])
  }

  function NormalizeNewlines(s: string): string
  {
    ReplaceCr(ReplaceCrLf(s))
  }

  lemma {:induction false} ReplaceCrLfEmpty(s: string)
    ensures ReplaceCrLf(s) == [] <==> s == []
  {
  }

  lemma {:induction false} ReplaceCrLfWithoutCr(s: string)
    requires '\r' !in s
    ensures ReplaceCrLf(s) == s
    decreases |s|
  {
    if |s| > 0 {
      assert s == [s[0]] + s[1..];
      ReplaceCrLfWithoutCr(s[1..]);
    }
  }

  /** After unification no carriage return is left, and only the empty text unifies to the empty text. */
  lemma NormalizedHasNoCr(s: string)
    ensures '\r' !in NormalizeNewlines(s)
    ensures NormalizeNewlines(s) == [] <==> s == []
  {
    ReplaceCrLfEmpty(s);
  }

  /** Text whose newlines are already unified is left unchanged, so unification is idempotent. */
  lemma NormalizeWithoutCr(s: string)
    requires '\r' !in s
    ensures NormalizeNewlines(s) == s
  {
    ReplaceCrLfWithoutCr(s);
  }

  /** One CRLF between two texts without carriage returns becomes one line feed. */
  lemma {:induction false} ReplaceCrLfOne(a: string, b: string)
    requires '\r' !in a && '\r' !in b
    ensures ReplaceCrLf(a + "\r\n" + b) == a + "\n" + b
    decreases |a|
  {
    var s := a + "\r\n" + b;
    if a == [] {
      assert s[0] == '\r' && s[1] == '\n' && s[2..] == b;
      ReplaceCrLfWithoutCr(b);
    } else {
      assert s[0] == a[0] != '\r' && s[1..] == a[1..] + "\r\n" + b;
      assert ReplaceCrLf(s) == [a[0]] + ReplaceCrLf(s[1..]);
      ReplaceCrLfOne(a[1..], b);
      assert a == [a[0]] + a[1..];
      assert [a[0]] + (a[1..] + "\n" + b) == a + "\n" + b;
    }
  }

  /** Unifying a text with one CRLF replaces it by a line feed and changes nothing else. */
  lemma NormalizeCrLf(a: string, b: string)
    requires '\r' !in a && '\r' !in b
    ensures NormalizeNewlines(a + "\r\n" + b) == a + "\n" + b
  {
    ReplaceCrLfOne(a, b);
    assert '\r' !in a + "\n" + b;
    ReplaceCrLfWithoutCr(a + "\n" + b);
  }

  lemma NormalizeIdempotent(s: string)
    ensures NormalizeNewlines(NormalizeNewlines(s)) == NormalizeNewlines(s)
  {
    NormalizedHasNoCr(s);
    NormalizeWithoutCr(NormalizeNewlines(s));
  }
}
