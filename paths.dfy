/**
 * The string operations the downloader relies on: Python's `str.rsplit(sep, 1)`,
 * `str.join` and POSIX `os.path.join`.
 */
module Paths {
  import opened Wrappers

  predicate EndsWith(s: string, suffix: string) {
    |suffix| <= |s| && s[|s| - |suffix|..] == suffix
  }

  /** Position of the last occurrence of `c` in `s`, if any. */
  function LastIndexOf(s: string, c: char): (r: Option<nat>)
    ensures r.None? <==> c !in s
    ensures r.Some? ==> r.value < |s| && s[r.value] == c && c !in s[r.value + 1..]
  {
    if s == [] then None
    else if s[|s| - 1] == c then
      assert s[|s|..] == [];
      Some(|s| - 1)
    else
      var r := LastIndexOf(s[..|s| - 1], c);
      assert s == s[..|s| - 1] + [s[|s| - 1]];
      if r.Some? then
        assert s[r.value + 1..] == s[..|s| - 1][r.value + 1..] + [s[|s| - 1]];
        r
      else
        r
  }

  /** The last occurrence is the only position holding `c` with no `c` after it. */
  lemma LastIndexOfAt(s: string, c: char, k: nat)
    requires k < |s| && s[k] == c && c !in s[k + 1..]
    ensures LastIndexOf(s, c) == Some(k)
  {
    assert c in s by { assert s[k] == c; }
    var j := LastIndexOf(s, c).value;
    NoneAfter(s, c, j);
    NoneAfter(s, c, k);
  }

  /** `c !in s[k + 1..]` spelled out position by position. */
  lemma NoneAfter(s: string, c: char, k: nat)
    requires k < |s| && c !in s[k + 1..]
    ensures forall i :: k < i < |s| ==> s[i] != c
  {
    forall i | k < i < |s| ensures s[i] != c {
      assert s[i] == s[k + 1..][i - k - 1];
    }
  }

  /** `s.rsplit(sep, 1)`: the text before and after the last `sep`, or `[s]` when there is none. */
  function RSplitOnce(s: string, sep: char): (parts: seq<string>)
    ensures 1 <= |parts| <= 2
    ensures |parts| == 2 <==> sep in s
    ensures sep !in parts[|parts| - 1]
    ensures parts[0] <= s
  {
    match LastIndexOf(s, sep)
    case None => [s]
    case Some(k) => [s[..k], s[k + 1..]]
  }

  /** `sep.join(parts)` for a one-character separator. */
  function JoinWith(sep: char, parts: seq<string>): string
  {
    if |parts| == 0 then ""
    else if |parts| == 1 then parts[0]
    else JoinWith(sep, parts[..|parts| - 1]) + [sep] + parts[|parts| - 1]
  }

  /** Joining the pieces of `rsplit` with the separator gives back the original text. */
  lemma RSplitOnceJoin(s: string, sep: char)
    ensures JoinWith(sep, RSplitOnce(s, sep)) == s
  {
    match LastIndexOf(s, sep)
    case None =>
    case Some(k) =>
      var parts := RSplitOnce(s, sep);
      assert parts[..1] == [s[..k]];
      assert s == s[..k] + [sep] + s[k + 1..];
  }

  /**
   * POSIX `os.path.join(a, b)`: an absolute `b` replaces `a`; otherwise `b` is appended,
   * with a `/` between them unless `a` is empty or already ends in `/`.
   */
  function PathJoin(a: string, b: string): (r: string)
    ensures EndsWith(r, b)
    ensures |b| > 0 && b[0] == '/' ==> r == b
    ensures (|b| == 0 || b[0] != '/') ==> a <= r
  {
    if |b| > 0 && b[0] == '/' then b
    else if a == [] || a[|a| - 1] == '/' then a + b
    else a + "/" + b
  }
}
