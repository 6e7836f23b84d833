/** The two string operations the contact search uses: `toLowerCase` (over ASCII
    letters only) and `includes`. */
module Text {

  /** `c.toLowerCase()` for one character: A-Z map to a-z, everything else is kept. */
  function LowerChar(c: char): (r: char)
    ensures 'A' <= c <= 'Z' ==> r as int == c as int + 32
    ensures !('A' <= c <= 'Z') ==> r == c
    ensures !('A' <= r <= 'Z')
  {
    if 'A' <= c <= 'Z' then (c as int + 32) as char else c
  }

  /** `s.toLowerCase()` */
  function Lower(s: string): (r: string)
    ensures |r| == |s|
    ensures forall i :: 0 <= i < |s| ==> r[i] == LowerChar(s[i])
  {
    seq(|s|, i requires 0 <= i < |s| => LowerChar(s[i]))
  }

  /** Lowercasing a lowercased string changes nothing. */
  lemma LowerIdempotent(s: string)
    ensures Lower(Lower(s)) == Lower(s)
  {
    var once := Lower(s);
    forall i | 0 <= i < |s| ensures Lower(once)[i] == once[i] {
      assert !('A' <= once[i] <= 'Z');
    }
  }

  /** The empty string is the only one that lowercases to the empty string. */
  lemma LowerEmpty(s: string)
    ensures Lower(s) == "" <==> s == ""
  {
  }

  /** `needle` occurs in `haystack` starting at position `k`. */
  predicate OccursAt(haystack: string, needle: string, k: int)
  {
    0 <= k && k + |needle| <= |haystack| && haystack[k..k + |needle|] == needle
  }

  /** `haystack.includes(needle)`: `needle` occurs at some position of `haystack`. */
  function Includes(haystack: string, needle: string): (r: bool)
    ensures r <==> exists k :: OccursAt(haystack, needle, k)
    decreases |haystack|
  {
    if |needle| <= |haystack| && haystack[..|needle|] == needle then
      assert OccursAt(haystack, needle, 0);
      true
    else if haystack == [] then
      false
    else
      var tail := haystack[1..];
      var found := Includes(tail, needle);
      if found then
        var k :| OccursAt(tail, needle, k);
        assert OccursAt(haystack, needle, k + 1) by {
          assert haystack[k + 1..k + 1 + |needle|] == tail[k..k + |needle|];
        }
        true
      else
        assert forall k :: OccursAt(haystack, needle, k) ==> k == 0 || OccursAt(tail, needle, k - 1) by {
          forall k | OccursAt(haystack, needle, k) && k != 0 ensures OccursAt(tail, needle, k - 1) {
            assert haystack[k..k + |needle|] == tail[k - 1..k - 1 + |needle|];
          }
        }
        false
  }

  /** Every string includes the empty string. */
  lemma IncludesEmpty(haystack: string)
    ensures Includes(haystack, "")
  {
    assert OccursAt(haystack, "", 0);
  }
}
