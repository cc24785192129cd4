/**
 * The JavaScript string built-ins the site relies on, over `seq<char>`:
 * `toLowerCase` (restricted to ASCII letters), `includes`, `indexOf`,
 * `replace` with a string pattern, and `startsWith`.
 */
module JsString {

  /** ASCII lower-casing of one character; every other character is kept. */
  function LowerChar(c: char): char {
    if 'A' <= c <= 'Z' then (c as int + 32) as char else c
  }

  predicate IsUpperAscii(c: char) {
    'A' <= c <= 'Z'
  }

  /** `s.toLowerCase()`, for ASCII letters only. */
  function ToLowerCase(s: string): (r: string)
    ensures |r| == |s|
    ensures forall i :: 0 <= i < |s| ==> r[i] == LowerChar(s[i])
    ensures forall i :: 0 <= i < |r| ==> !IsUpperAscii(r[i])
  {
    if s == [] then [] else [LowerChar(s[0])] + ToLowerCase(s[1..])
  }

  /** Lower-casing a string that is already lower-cased changes nothing. */
  lemma {:induction false} ToLowerCaseIdempotent(s: string)
    ensures ToLowerCase(ToLowerCase(s)) == ToLowerCase(s)
  {
    if s != [] {
      ToLowerCaseIdempotent(s[1..]);
      assert ToLowerCase(s)[1..] == ToLowerCase(s[1..]);
    }
  }

  /** `sub` occurs in `s` starting at index `i`. */
  predicate OccursAt(s: string, sub: string, i: int) {
    0 <= i <= |s| - |sub| && s[i..i + |sub|] == sub
  }

  /** `s.includes(sub)`: `sub` occurs in `s` as a contiguous block. */
  predicate Includes(s: string, sub: string) {
    exists i :: 0 <= i <= |s| && OccursAt(s, sub, i)
  }

  /** The empty string occurs in every string. */
  lemma IncludesEmpty(s: string)
    ensures Includes(s, "")
  {
    assert OccursAt(s, "", 0);
  }

  /** A string that contains `sub` is at least as long as `sub`, and every string contains itself. */
  lemma IncludesBounds(s: string, sub: string)
    ensures Includes(s, sub) ==> |sub| <= |s|
    ensures Includes(s, s)
  {
    assert OccursAt(s, s, 0);
  }

  /** A block of a block of `s` is a block of `s`. */
  lemma IncludesTransitive(s: string, a: string, b: string)
    requires Includes(s, a) && Includes(a, b)
    ensures Includes(s, b)
  {
    var i :| 0 <= i <= |s| && OccursAt(s, a, i);
    var j :| 0 <= j <= |a| && OccursAt(a, b, j);
    assert s[i..i + |a|] == a;
    assert a[j..j + |b|] == b;
    forall k | 0 <= k < |b|
      ensures s[i + j + k] == b[k]
    {
      assert s[i..i + |a|][j + k] == a[j + k];
      assert a[j..j + |b|][k] == a[j + k];
    }
    assert s[i + j..i + j + |b|] == b;
    assert OccursAt(s, b, i + j);
  }

  /** Lower-casing commutes with taking a slice. */
  lemma ToLowerCaseSlice(s: string, i: int, j: int)
    requires 0 <= i <= j <= |s|
    ensures ToLowerCase(s[i..j]) == ToLowerCase(s)[i..j]
  {
  }

  /** Lower-casing both sides keeps an occurrence. */
  lemma IncludesToLowerCase(s: string, sub: string)
    requires Includes(s, sub)
    ensures Includes(ToLowerCase(s), ToLowerCase(sub))
  {
    var i :| 0 <= i <= |s| && OccursAt(s, sub, i);
    ToLowerCaseSlice(s, i, i + |sub|);
    assert OccursAt(ToLowerCase(s), ToLowerCase(sub), i);
  }

  /** `s.startsWith(prefix)`. */
  predicate StartsWith(s: string, prefix: string) {
    |prefix| <= |s| && s[..|prefix|] == prefix
  }

  /** A string that starts with `prefix` includes it. */
  lemma StartsWithIncludes(s: string, prefix: string)
    requires StartsWith(s, prefix)
    ensures Includes(s, prefix)
  {
    assert OccursAt(s, prefix, 0);
  }

  /** The first index at or after `from` where `sub` occurs, or -1. */
  function IndexOfFrom(s: string, sub: string, from: nat): (r: int)
    requires from <= |s|
    ensures r == -1 || (from <= r && OccursAt(s, sub, r))
    ensures r != -1 ==> forall j :: from <= j < r ==> !OccursAt(s, sub, j)
    ensures r == -1 ==> forall j :: from <= j <= |s| ==> !OccursAt(s, sub, j)
    decreases |s| - from
  {
    if OccursAt(s, sub, from) then from
    else if from == |s| then -1
    else IndexOfFrom(s, sub, from + 1)
  }

  /** `s.indexOf(sub)`. */
  function IndexOf(s: string, sub: string): int {
    IndexOfFrom(s, sub, 0)
  }

  /** `indexOf` finds the first occurrence, and finds one exactly when `includes` holds. */
  lemma IndexOfSpec(s: string, sub: string)
    ensures IndexOf(s, sub) >= 0 <==> Includes(s, sub)
    ensures IndexOf(s, sub) >= 0 ==>
      OccursAt(s, sub, IndexOf(s, sub)) && forall j :: 0 <= j < IndexOf(s, sub) ==> !OccursAt(s, sub, j)
  {
  }

  /** `s.replace(pattern, replacement)` with a string pattern: only the first occurrence is replaced. */
  function Replace(s: string, pattern: string, replacement: string): string {
    var i := IndexOf(s, pattern);
    if i < 0 then s else s[..i] + replacement + s[i + |pattern|..]
  }

  /** Removing a prefix with `replace` leaves the rest; a pattern that does not occur changes nothing. */
  lemma ReplaceSpec(s: string, pattern: string, replacement: string)
    ensures StartsWith(s, pattern) ==> Replace(s, pattern, "") == s[|pattern|..]
    ensures !Includes(s, pattern) ==> Replace(s, pattern, replacement) == s
  {
    IndexOfSpec(s, pattern);
    if StartsWith(s, pattern) {
      assert OccursAt(s, pattern, 0);
    }
  }
}
