/** Character searches and line splitting over Go strings, modelled as `seq<char>`. */
module Strings {
  import opened Wrappers

  /** `strings.Split(s, "\n")`: the pieces between newlines; one more piece than newlines. */
  function SplitLines(s: string): (lines: seq<string>)
    ensures |lines| >= 1
    ensures forall k :: 0 <= k < |lines| ==> '\n' !in lines[k]
  {
    if |s| == 0 then [""]
    else
      var rest := SplitLines(s[1..]);
      if s[0] == '\n' then [""] + rest else [[s[0]] + rest[0]] + rest[1..]
  }

  /** There is one more piece than there are newlines. */
  lemma {:induction false} SplitLinesCount(s: string)
    ensures |SplitLines(s)| == multiset(s)['\n'] + 1
  {
    if |s| > 0 {
      SplitLinesCount(s[1..]);
      assert s == [s[0]] + s[1..];
    }
  }

  lemma {:induction false} SplitLinesOfLine(a: string)
    requires '\n' !in a
    ensures SplitLines(a) == [a]
  {
    if |a| > 0 {
      SplitLinesOfLine(a[1..]);
      assert [a[0]] + a[1..] == a;
    }
  }

  /** Appending a newline and a line without newlines adds that line as the last piece. */
  lemma {:induction false} SplitLinesSnoc(a: string, b: string)
    requires '\n' !in b
    ensures SplitLines(a + "\n" + b) == SplitLines(a) + [b]
  {
    var s := a + "\n" + b;
    if |a| == 0 {
      assert s[1..] == b;
      SplitLinesOfLine(b);
    } else {
      assert s[1..] == a[1..] + "\n" + b;
      SplitLinesSnoc(a[1..], b);
    }
  }

  /** Lines joined by newlines, as `strings.Join(lines, "\n")`. */
  function JoinLines(lines: seq<string>): string {
    if |lines| == 0 then ""
    else if |lines| == 1 then lines[0]
    else JoinLines(lines[..|lines| - 1]) + "\n" + lines[|lines| - 1]
  }

  /** Lines without newlines of their own, joined by newlines, split back into the same lines. */
  lemma {:induction false} SplitJoinLines(lines: seq<string>)
    requires |lines| >= 1
    requires forall k :: 0 <= k < |lines| ==> '\n' !in lines[k]
    ensures SplitLines(JoinLines(lines)) == lines
  {
    if |lines| == 1 {
      SplitLinesOfLine(lines[0]);
    } else {
      var front := lines[..|lines| - 1];
      SplitJoinLines(front);
      SplitLinesSnoc(JoinLines(front), lines[|lines| - 1]);
      assert front + [lines[|lines| - 1]] == lines;
    }
  }

  /** The text strictly between prefix `p` and suffix `q`, when `s` has both. */
  function Between(s: string, p: string, q: string): (r: Option<string>)
    ensures r.Some? ==> p + r.value + q == s
  {
    if |s| < |p| + |q| || s[..|p|] != p || s[|s| - |q|..] != q then None
    else
      var mid := s[|p|..|s| - |q|];
      assert s == s[..|p|] + mid + s[|s| - |q|..];
      Some(mid)
  }

  lemma BetweenOf(p: string, mid: string, q: string)
    ensures Between(p + mid + q, p, q) == Some(mid)
  {
  }

  /** The position of the first `c` in `s`. */
  function IndexOf(s: string, c: char): (r: Option<nat>)
    ensures r.None? <==> c !in s
    ensures r.Some? ==> r.value < |s| && s[r.value] == c && c !in s[..r.value]
  {
    if |s| == 0 then None
    else if s[0] == c then Some(0)
    else
      match IndexOf(s[1..], c)
      case None => None
      case Some(i) => assert s[1..][..i] == s[1..i + 1]; Some(i + 1)
  }

  /** The position of the last `c` in `s`. */
  function LastIndexOf(s: string, c: char): (r: Option<nat>)
    ensures r.None? <==> c !in s
    ensures r.Some? ==> r.value < |s| && s[r.value] == c && c !in s[r.value + 1..]
  {
    if |s| == 0 then None
    else if s[|s| - 1] == c then Some(|s| - 1)
    else
      var front := s[..|s| - 1];
      assert s == front + [s[|s| - 1]];
      LastIndexOf(front, c)
  }

  /** The first `c` after a prefix without `c` is the one right after the prefix. */
  lemma IndexOfAfter(a: string, c: char, b: string)
    ensures c !in a ==> IndexOf(a + [c] + b, c) == Some(|a|)
  {
    var s := a + [c] + b;
    assert s[|a|] == c;
    assert s[..|a|] == a;
  }

  /**
   * The last `c` before a suffix without `c` is the one right before the
   * suffix: the search from the end steps over the whole suffix first.
   */
  lemma {:induction false} LastIndexOfBefore(a: string, c: char, b: string)
    requires c !in b
    ensures LastIndexOf(a + [c] + b, c) == Some(|a|)
    decreases |b|
  {
    var s := a + [c] + b;
    if |b| == 0 {
      assert s[|s| - 1] == c;
    } else {
      var front := b[..|b| - 1];
      assert s[|s| - 1] == b[|b| - 1];
      assert s[..|s| - 1] == a + [c] + front;
      LastIndexOfBefore(a, c, front);
    }
  }
}
