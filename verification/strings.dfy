/** The JavaScript string operations the extension relies on:
    `endsWith`, and `replace` with a string pattern, which rewrites only the
    FIRST occurrence of the pattern. */
module Strings {
  import opened Optional

  predicate EndsWith(s: string, suffix: string) {
    |suffix| <= |s| && s[|s| - |suffix|..] == suffix
  }

  /** `pat` occurs in `s` starting at index `i`. */
  predicate OccursAt(s: string, pat: string, i: int) {
    0 <= i && i + |pat| <= |s| && s[i..i + |pat|] == pat
  }

  /** `i` is the leftmost occurrence of `pat` in `s`. */
  predicate IsFirstOccurrence(s: string, pat: string, i: int) {
    OccursAt(s, pat, i) && forall j :: 0 <= j < i ==> !OccursAt(s, pat, j)
  }

  /** `r` is `s` with the `pat` at index `i` rewritten to `rep`. */
  predicate ReplacedAt(s: string, pat: string, rep: string, i: nat, r: string)
    requires i + |pat| <= |s|
  {
    r == s[..i] + rep + s[i + |pat|..]
  }

  /** Leftmost occurrence of `pat` at or after `from`, given none before it. */
  function IndexOfFrom(s: string, pat: string, from: nat): (r: Option<nat>)
    requires forall j :: 0 <= j < from ==> !OccursAt(s, pat, j)
    ensures r.Some? ==> IsFirstOccurrence(s, pat, r.value)
    ensures r.None? ==> forall j :: !OccursAt(s, pat, j)
    decreases |s| - from
  {
    if from + |pat| > |s| then None
    else if s[from..from + |pat|] == pat then Some(from)
    else IndexOfFrom(s, pat, from + 1)
  }

  /** `String.prototype.indexOf`, with None for -1. */
  function IndexOf(s: string, pat: string): (r: Option<nat>)
    ensures r.Some? <==> exists i :: OccursAt(s, pat, i)
    ensures r.Some? ==> IsFirstOccurrence(s, pat, r.value)
  {
    IndexOfFrom(s, pat, 0)
  }

  /** `s.replace(pat, rep)` for string `pat` and a replacement without `$`
      patterns: the first occurrence is rewritten, a missing one leaves `s`. */
  function ReplaceFirst(s: string, pat: string, rep: string): (r: string)
    ensures IndexOf(s, pat).None? ==> r == s
    ensures IndexOf(s, pat).Some? ==>
      var i := IndexOf(s, pat).value;
      |r| == |s| - |pat| + |rep| && r[..i] == s[..i] && r[i..i + |rep|] == rep
      && r[i + |rep|..] == s[i + |pat|..]
  {
    match IndexOf(s, pat)
    case None => s
    case Some(i) => s[..i] + rep + s[i + |pat|..]
  }
}
