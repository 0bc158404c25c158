/**
 * The JavaScript built-ins the signup checks and the user controller rely on: String.prototype.lastIndexOf,
 * Array.prototype.indexOf and the truthiness of an optional string parameter.
 */
module JsBuiltins {
  import opened Wrappers

  /** The pattern p occurs in s starting at index k. */
  predicate OccursAt(s: string, p: string, k: int)
  {
    0 <= k && k + |p| <= |s| && s[k..k + |p|] == p
  }

  ghost predicate Occurs(s: string, p: string)
  {
    exists k :: OccursAt(s, p, k)
  }

  /** k is where the last occurrence of p in s starts. */
  ghost predicate IsLastOccurrence(s: string, p: string, k: int)
  {
    OccursAt(s, p, k) && forall j :: k < j ==> !OccursAt(s, p, j)
  }

  /**
   * s.lastIndexOf(p): the start of the last occurrence of p in s, or -1 when
   * p does not occur (for the empty pattern, |s|).
   */
  function LastIndexOf(s: string, p: string): (r: int)
    ensures r == -1 <==> !Occurs(s, p)
    ensures r != -1 ==> IsLastOccurrence(s, p, r)
  {
    if |p| > |s| then -1 else LastIndexOfFrom(s, p, |s| - |p|)
  }

  /** The last occurrence of p in s that starts at index i or before, or -1. */
  function LastIndexOfFrom(s: string, p: string, i: nat): (r: int)
    requires i + |p| <= |s|
    ensures r == -1 || (OccursAt(s, p, r) && r <= i)
    ensures forall j :: r < j <= i ==> !OccursAt(s, p, j)
    decreases i
  {
    if OccursAt(s, p, i) then i
    else if i == 0 then -1
    else LastIndexOfFrom(s, p, i - 1)
  }

  /** The last occurrence of a pattern is unique, so LastIndexOf finds it. */
  lemma LastIndexOfFindsLast(s: string, p: string, k: int)
    requires IsLastOccurrence(s, p, k)
    ensures LastIndexOf(s, p) == k
  {
  }

  /** For a one-character pattern, an occurrence is that character at that index. */
  lemma OccursAtChar(s: string, c: char, k: int)
    ensures OccursAt(s, [c], k) <==> 0 <= k < |s| && s[k] == c
  {
  }

  /** xs.indexOf(x): the index of the first occurrence of x in xs, or -1. */
  function IndexOf(xs: seq<string>, x: string): (r: int)
    ensures r == -1 <==> x !in xs
    ensures r != -1 ==> 0 <= r < |xs| && xs[r] == x && x !in xs[..r]
  {
    if xs == [] then -1
    else if xs[0] == x then 0
    else
      var k := IndexOf(xs[1..], x);
      if k == -1 then -1 else k + 1
  }

  /** A parameter that may be absent is truthy when present and not the empty string. */
  predicate Truthy(param: Option<string>)
  {
    param.Some? && param.value != ""
  }
}
