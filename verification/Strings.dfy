/** The few string operations that names, paths and keys are made with. */
module Strings {
  import opened Wrappers

  predicate HasPrefix(s: string, p: string) {
    |p| <= |s| && s[..|p|] == p
  }

  predicate HasSuffix(s: string, t: string) {
    |t| <= |s| && s[|s| - |t|..] == t
  }

  /** strings.Cut at the first occurrence of one character. */
  function Cut(s: string, c: char): (r: Option<(string, string)>)
    ensures r.None? <==> c !in s
    ensures r.Some? ==> c !in r.value.0 && s == r.value.0 + [c] + r.value.1
  {
    if s == "" then None
    else if s[0] == c then Some(("", s[1..]))
    else
      match Cut(s[1..], c)
      case None => None
      case Some((before, after)) => Some(([s[0]] + before, after))
  }

  lemma {:induction false} CutAtFirst(before: string, c: char, after: string)
    requires c !in before
    ensures Cut(before + [c] + after, c) == Some((before, after))
  {
    var s := before + [c] + after;
    if before == "" {
      assert s[0] == c && s[1..] == after;
    } else {
      assert s[0] == before[0] && s[1..] == before[1..] + [c] + after;
      CutAtFirst(before[1..], c, after);
      assert [before[0]] + before[1..] == before;
    }
  }

  /** What comes before and after the first occurrence is determined. */
  lemma CutsApart(a: string, c: char, rest: string, b: string, rest': string)
    requires c !in a && c !in b && a + [c] + rest == b + [c] + rest'
    ensures a == b && rest == rest'
  {
    CutAtFirst(a, c, rest);
    CutAtFirst(b, c, rest');
  }

  function Lower(c: char): char {
    if 'A' <= c <= 'Z' then c - 'A' + 'a' else c
  }

  function ToLower(s: string): (r: string)
    ensures |r| == |s|
  {
    seq(|s|, i requires 0 <= i < |s| => Lower(s[i]))
  }
}
