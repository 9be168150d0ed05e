/** The string operations of the search filter: ASCII lower-casing and substring search. */
module Text {

  /** `toLowerCase` on one character, restricted to the ASCII letters. */
  function LowerChar(c: char): char {
    if 'A' <= c <= 'Z' then (c as int - 'A' as int + 'a' as int) as char else c
  }

  /** `toLowerCase` on a string: every character lowered, in place. */
  function Lower(s: string): (r: string)
    ensures |r| == |s|
    ensures forall i :: 0 <= i < |s| ==> r[i] == LowerChar(s[i])
  {
    if s == [] then [] else [LowerChar(s[0])] + Lower(s[1..])
  }

  /** Lowering twice is lowering once. */
  lemma LowerIdempotent(s: string)
    ensures Lower(Lower(s)) == Lower(s)
  {
    var l := Lower(s);
    assert forall i :: 0 <= i < |l| ==> Lower(l)[i] == LowerChar(LowerChar(s[i])) == l[i];
  }

  predicate StartsWith(s: string, prefix: string) {
    |prefix| <= |s| && s[..|prefix|] == prefix
  }

  /** `String.prototype.includes`: does `needle` occur in `s`, scanning from the left. */
  function Includes(s: string, needle: string): bool
    decreases |s|
  {
    StartsWith(s, needle) || (s != [] && Includes(s[1..], needle))
  }

  /** `needle` occurs in `s` starting at position `i`. */
  predicate OccursAt(s: string, needle: string, i: int) {
    0 <= i <= |s| - |needle| && s[i..i + |needle|] == needle
  }

  /** The scan finds `needle` exactly when it occurs at some position of `s`. */
  lemma {:induction false} IncludesIffOccurs(s: string, needle: string)
    ensures Includes(s, needle) <==> exists i :: OccursAt(s, needle, i)
    decreases |s|
  {
    var n := |needle|;
    if StartsWith(s, needle) {
      assert OccursAt(s, needle, 0);
    } else if s != [] {
      IncludesIffOccurs(s[1..], needle);
      if Includes(s[1..], needle) {
        var j :| OccursAt(s[1..], needle, j);
        TailSlice(s, j, n);
        assert OccursAt(s, needle, j + 1);
      }
      if exists i :: OccursAt(s, needle, i) {
        var i :| OccursAt(s, needle, i);
        assert i != 0;
        TailSlice(s, i - 1, n);
        assert OccursAt(s[1..], needle, i - 1);
      }
    }
  }

  /** A slice of the tail is the slice of the whole string one position further on. */
  lemma TailSlice(s: string, j: nat, n: nat)
    requires s != [] && j + n <= |s| - 1
    ensures s[1..][j..j + n] == s[j + 1..j + 1 + n]
  {
    var a, b := s[1..][j..j + n], s[j + 1..j + 1 + n];
    forall k | 0 <= k < n
      ensures a[k] == b[k]
    {
    }
  }
}
