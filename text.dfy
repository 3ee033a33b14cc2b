/**
 * The two string operations the application relies on: lower-casing
 * (`str.lower()`, here restricted to ASCII letters) and Python's substring
 * test `k in s`.
 */
module Text {

  /** ASCII case folding of one character; every other character is kept. */
  function LowerChar(c: char): char
  {
    if 'A' <= c <= 'Z' then (c as int + 32) as char else c
  }

  /** `s.lower()`, character by character. */
  function Lower(s: string): string
  {
    seq(|s|, i requires 0 <= i < |s| => LowerChar(s[i]))
  }

  /** Lower-casing an already lower-cased string changes nothing. */
  lemma LowerIdempotent(s: string)
    ensures Lower(Lower(s)) == Lower(s)
  {
    var once := Lower(s);
    assert forall i :: 0 <= i < |s| ==> LowerChar(once[i]) == once[i];
  }

  /** Lower-casing distributes over concatenation. */
  lemma LowerConcat(a: string, b: string)
    ensures Lower(a + b) == Lower(a) + Lower(b)
  {
  }

  /** Reference meaning of `k in s`: `k` is found at some position of `s`. */
  ghost predicate Occurs(k: string, s: string)
  {
    exists i :: OccursAt(k, s, i)
  }

  /** `k` is the part of `s` that starts at position `i`. */
  predicate OccursAt(k: string, s: string, i: int)
  {
    0 <= i <= |s| - |k| && s[i..i + |k|] == k
  }

  predicate StartsWith(s: string, k: string)
  {
    |k| <= |s| && s[..|k|] == k
  }

  /** Python's `k in s` for strings: try every start position from the left. */
  predicate Contains(s: string, k: string)
    decreases |s|
  {
    StartsWith(s, k) || (s != [] && Contains(s[1..], k))
  }

  /** The left-to-right scan finds `k` exactly when `k` occurs somewhere in `s`. */
  lemma {:induction false} ContainsIff(s: string, k: string)
    ensures Contains(s, k) <==> Occurs(k, s)
    decreases |s|
  {
    // from a position where k occurs to the scan finding it
    if Occurs(k, s) {
      var i :| OccursAt(k, s, i);
      if i == 0 {
        assert StartsWith(s, k);
      } else {
        assert s[1..][i - 1..i - 1 + |k|] == s[i..i + |k|];
        assert OccursAt(k, s[1..], i - 1);
        ContainsIff(s[1..], k);
      }
    }
    // from the scan finding k to a position where it occurs
    if StartsWith(s, k) {
      assert OccursAt(k, s, 0);
    } else if Contains(s, k) {
      ContainsIff(s[1..], k);
      var j :| OccursAt(k, s[1..], j);
      assert s[1..][j..j + |k|] == s[j + 1..j + 1 + |k|];
      assert OccursAt(k, s, j + 1);
    }
  }

  /** A string occurs in any string that has it as a middle part. */
  lemma OccursInMiddle(pre: string, k: string, post: string)
    ensures Occurs(k, pre + k + post)
  {
    var s := pre + k + post;
    assert s[|pre|..|pre| + |k|] == k;
    assert OccursAt(k, s, |pre|);
  }
}
