/**
 * The two JavaScript string operations the payload extractor relies on,
 * `String.prototype.indexOf` and the legacy `String.prototype.substr`,
 * with their semantics written out over Dafny strings.
 */
module JsString {
  import opened Wrappers

  function Min(a: int, b: int): int { if a <= b then a else b }
  function Max(a: int, b: int): int { if a <= b then b else a }

  /** `pat` occurs in `s` starting at offset `i`. */
  predicate OccursAt(s: string, pat: string, i: int) {
    0 <= i && i + |pat| <= |s| && s[i..i + |pat|] == pat
  }

  /** `pat` occurs somewhere in `s`. */
  predicate Contains(s: string, pat: string) {
    exists i :: 0 <= i <= |s| && OccursAt(s, pat, i)
  }

  /** `s.indexOf(pat, i)`: the first occurrence at or after `i`, or -1. */
  function IndexOfFrom(s: string, pat: string, i: nat): (r: int)
    requires i <= |s|
    ensures r == -1 ==> forall j :: i <= j ==> !OccursAt(s, pat, j)
    ensures r != -1 ==> i <= r && OccursAt(s, pat, r)
    ensures r != -1 ==> forall j :: i <= j < r ==> !OccursAt(s, pat, j)
    decreases |s| - i
  {
    if i + |pat| > |s| then -1
    else if s[i..i + |pat|] == pat then i
    else IndexOfFrom(s, pat, i + 1)
  }

  /** `s.indexOf(pat)`: the offset of the first occurrence of `pat`, or -1 when there is none. */
  function IndexOf(s: string, pat: string): (r: int)
    ensures r == -1 || 0 <= r <= |s| - |pat|
    ensures r == -1 <==> !Contains(s, pat)
    ensures r != -1 ==> OccursAt(s, pat, r) && forall j :: 0 <= j < r ==> !OccursAt(s, pat, j)
  {
    IndexOfFrom(s, pat, 0)
  }

  /**
   * `s.substr(start, length)`, `length == None` standing for an omitted
   * argument: a negative start counts back from the end (and stops at 0), a
   * start past the end gives "", and the length is clamped to `[0, |s|]`, so a
   * negative length yields "".
   */
  function Substr(s: string, start: int, length: Option<int>): (r: string)
    ensures |r| <= |s|
    ensures length.None? && 0 <= start <= |s| ==> r == s[start..]
    ensures 0 <= start && |s| <= start ==> r == ""
    ensures length.Some? && length.value <= 0 ==> r == ""
    ensures length.Some? && 0 <= length.value && 0 <= start <= |s| ==>
              r == s[start..Min(start + length.value, |s|)]
    ensures start < 0 && length.None? ==> r == s[Max(|s| + start, 0)..]
    ensures start < 0 && length.Some? && 0 <= length.value ==>
              r == s[Max(|s| + start, 0)..Min(Max(|s| + start, 0) + length.value, |s|)]
  {
    var size := |s|;
    var begin := if start < 0 then Max(size + start, 0) else Min(start, size);
    var count := match length
      case None => size
      case Some(n) => Min(Max(n, 0), size);
    s[begin..Min(begin + count, size)]
  }
}
