/** Small value types and the Python string operations the core relies on. */
module Basics {

  datatype Option<+T> = None | Some(value: T)

  /** A value or the exception the source raises instead. */
  datatype Result<+T, +E> = Success(value: T) | Failure(error: E)

  function Min(a: int, b: int): int {
    if a <= b then a else b
  }

  /** Python's `s.startswith(prefix)`: `prefix` agrees with `s` character by
      character at the start of `s`. */
  predicate StartsWith(s: string, prefix: string): (r: bool)
    ensures r <==> |prefix| <= |s| && forall i :: 0 <= i < |prefix| ==> s[i] == prefix[i]
  {
    |prefix| <= |s| && s[..|prefix|] == prefix
  }

  /** `sub` occurs in `s` starting at index `i`. */
  ghost predicate OccursAt(s: string, sub: string, i: int) {
    0 <= i && i + |sub| <= |s| && s[i..i + |sub|] == sub
  }

  /** Python's `sub in s` on strings: true iff `sub` occurs somewhere in `s`
      (the empty string occurs in every string). */
  function Contains(s: string, sub: string): (r: bool)
    ensures r <==> exists i :: OccursAt(s, sub, i)
    decreases |s|
  {
    if StartsWith(s, sub) then
      assert OccursAt(s, sub, 0);
      true
    else if |s| <= |sub| then
      assert forall i :: !OccursAt(s, sub, i);
      false
    else
      var r := Contains(s[1..], sub);
      assert r ==> exists i :: OccursAt(s, sub, i) by {
        if r {
          var i :| OccursAt(s[1..], sub, i);
          assert s[1..][i..i + |sub|] == s[i + 1..i + 1 + |sub|];
          assert OccursAt(s, sub, i + 1);
        }
      }
      assert (exists i :: OccursAt(s, sub, i)) ==> r by {
        if exists i :: OccursAt(s, sub, i) {
          var i :| OccursAt(s, sub, i);
          assert i != 0;
          assert s[1..][i - 1..i - 1 + |sub|] == s[i..i + |sub|];
          assert OccursAt(s[1..], sub, i - 1);
        }
      }
      r
  }

  /** Python's slice `s[:n]` for `n >= 0`: at most the first `n` characters. */
  function Take(s: string, n: nat): (r: string)
    ensures |r| == Min(n, |s|)
    ensures StartsWith(s, r)
  {
    if n <= |s| then s[..n] else s
  }
}
