/** JavaScript's `Array.prototype.filter` on finite sequences, and what every page
    relies on about it: the result keeps exactly the elements that pass, in order. */
module Seqs {

  /** `a` can be obtained from `b` by deleting elements (greedy left-to-right match). */
  predicate IsSubsequence<T(==)>(a: seq<T>, b: seq<T>)
    decreases |b|
  {
    if a == [] then true
    else if b == [] then false
    else if a[0] == b[0] then IsSubsequence(a[1..], b[1..])
    else IsSubsequence(a, b[1..])
  }

  /** `s.filter(p)`: the elements that pass, in their original order. */
  function Filter<T(==)>(s: seq<T>, p: T -> bool): (r: seq<T>)
    ensures |r| <= |s|
    ensures forall x :: x in r ==> x in s && p(x)
    ensures forall x :: x in s && p(x) ==> x in r
  {
    if s == [] then []
    else
      assert s == [s[0]] + s[1..];
      if p(s[0]) then [s[0]] + Filter(s[1..], p) else Filter(s[1..], p)
  }

  /** The result keeps the input's relative order. */
  lemma {:induction false} FilterIsSubsequence<T>(s: seq<T>, p: T -> bool)
    ensures IsSubsequence(Filter(s, p), s)
  {
    if s != [] {
      FilterIsSubsequence(s[1..], p);
      var rest := Filter(s[1..], p);
      if p(s[0]) {
        assert ([s[0]] + rest)[1..] == rest;
      } else if rest != [] {
        assert rest[0] in rest;
      }
    }
  }

  /** Each passing element is kept as many times as it occurs; the others not at all. */
  lemma {:induction false} FilterMultiplicity<T>(s: seq<T>, p: T -> bool, x: T)
    ensures multiset(Filter(s, p))[x] == if p(x) then multiset(s)[x] else 0
  {
    if s != [] {
      FilterMultiplicity(s[1..], p, x);
      assert s == [s[0]] + s[1..];
    }
  }

  /** `s.filter(p).length` */
  function Count<T(==)>(s: seq<T>, p: T -> bool): (n: nat)
    ensures n <= |s|
    ensures n == 0 <==> forall x :: x in s ==> !p(x)
    ensures n == |s| <==> forall x :: x in s ==> p(x)
  {
    var r := Filter(s, p);
    FilterAll(s, p);
    FilterNone(s, p);
    |r|
  }

  /** Every element passes exactly when nothing is dropped. */
  lemma {:induction false} FilterAll<T>(s: seq<T>, p: T -> bool)
    ensures (forall x :: x in s ==> p(x)) <==> Filter(s, p) == s
    ensures |Filter(s, p)| == |s| <==> Filter(s, p) == s
  {
    if s != [] {
      FilterAll(s[1..], p);
      assert s == [s[0]] + s[1..];
      if p(s[0]) {
        assert forall x :: x in s ==> x == s[0] || x in s[1..];
      } else {
        assert Filter(s, p) != s by {
          assert |Filter(s, p)| <= |s[1..]| < |s|;
        }
      }
    }
  }

  /** Nothing passes exactly when the result is empty. */
  lemma {:induction false} FilterNone<T>(s: seq<T>, p: T -> bool)
    ensures (forall x :: x in s ==> !p(x)) <==> Filter(s, p) == []
  {
    if s != [] {
      FilterNone(s[1..], p);
      assert forall x :: x in s ==> x == s[0] || x in s[1..];
    }
  }

  /** Two predicates that agree on the elements of `s` filter it identically. */
  lemma {:induction false} FilterCongruent<T>(s: seq<T>, p: T -> bool, q: T -> bool)
    requires forall x :: x in s ==> p(x) == q(x)
    ensures Filter(s, p) == Filter(s, q)
  {
    if s != [] {
      assert forall x :: x in s[1..] ==> x in s;
      FilterCongruent(s[1..], p, q);
    }
  }

  /** A passing block between two failing blocks is exactly what survives. */
  lemma FilterMiddle<T>(a: seq<T>, b: seq<T>, c: seq<T>, p: T -> bool)
    requires forall x :: x in a ==> !p(x)
    requires forall x :: x in b ==> p(x)
    requires forall x :: x in c ==> !p(x)
    ensures Filter(a + (b + c), p) == b
  {
    FilterAppend(a, b + c, p);
    FilterAppend(b, c, p);
    FilterNone(a, p);
    FilterAll(b, p);
    FilterNone(c, p);
  }

  /** When `p` holds exactly on the positions `lo .. hi - 1`, filtering is slicing. */
  lemma FilterIsSlice<T>(s: seq<T>, p: T -> bool, lo: nat, hi: nat)
    requires lo <= hi <= |s|
    requires forall i :: 0 <= i < |s| ==> (p(s[i]) <==> lo <= i < hi)
    ensures Filter(s, p) == s[lo..hi]
  {
    SliceAgrees(s, p, 0, lo, false);
    SliceAgrees(s, p, lo, hi, true);
    SliceAgrees(s, p, hi, |s|, false);
    assert s[..lo] == s[0..lo] && s[hi..] == s[hi..|s|];
    SplitThree(s, lo, hi);
    FilterMiddle(s[..lo], s[lo..hi], s[hi..], p);
  }

  /** A property of the positions of a slice is a property of its elements. */
  lemma SliceAgrees<T>(s: seq<T>, p: T -> bool, lo: nat, hi: nat, want: bool)
    requires lo <= hi <= |s|
    requires forall i :: lo <= i < hi ==> p(s[i]) == want
    ensures forall x :: x in s[lo..hi] ==> p(x) == want
  {
    forall x | x in s[lo..hi] ensures p(x) == want {
      var k :| 0 <= k < hi - lo && s[lo..hi][k] == x;
      assert s[lo + k] == x;
    }
  }

  lemma SplitThree<T>(s: seq<T>, lo: nat, hi: nat)
    requires lo <= hi <= |s|
    ensures s == s[..lo] + (s[lo..hi] + s[hi..])
  {
  }

  lemma SplitThreeLeft<T>(s: seq<T>, lo: nat, hi: nat)
    requires lo <= hi <= |s|
    ensures s == s[..lo] + s[lo..hi] + s[hi..]
  {
    assert s == s[..lo] + s[lo..];
    assert s[lo..] == s[lo..hi] + s[hi..];
  }

  /** Filtering by a conjunction `r` of `p` and `q` is filtering twice. */
  lemma {:induction false} FilterFilter<T>(s: seq<T>, p: T -> bool, q: T -> bool, r: T -> bool)
    requires forall x :: x in s ==> r(x) == (p(x) && q(x))
    ensures Filter(Filter(s, p), q) == Filter(s, r)
  {
    if s != [] {
      assert forall x :: x in s[1..] ==> x in s;
      FilterFilter(s[1..], p, q, r);
    }
  }

  /** Filtering distributes over concatenation. */
  lemma {:induction false} FilterAppend<T>(a: seq<T>, b: seq<T>, p: T -> bool)
    ensures Filter(a + b, p) == Filter(a, p) + Filter(b, p)
  {
    if a == [] {
      assert a + b == b;
    } else {
      assert (a + b)[1..] == a[1..] + b;
      FilterAppend(a[1..], b, p);
    }
  }

  /** The count depends only on the multiset of elements, not on their order. */
  lemma CountPermutation<T(!new)>(a: seq<T>, b: seq<T>, p: T -> bool)
    requires multiset(a) == multiset(b)
    ensures Count(a, p) == Count(b, p)
  {
    var ra, rb := Filter(a, p), Filter(b, p);
    forall x ensures multiset(ra)[x] == multiset(rb)[x] {
      FilterMultiplicity(a, p, x);
      FilterMultiplicity(b, p, x);
    }
    assert multiset(ra) == multiset(rb);
    assert |multiset(ra)| == |ra| && |multiset(rb)| == |rb|;
  }

  /** 1 when the element passes, 0 otherwise. */
  function Bit<T>(x: T, p: T -> bool): (b: nat)
    ensures b <= 1
    ensures b == 1 <==> p(x)
  {
    if p(x) then 1 else 0
  }

  /** Counting a non-empty list counts its first element, then the rest. */
  lemma CountCons<T>(s: seq<T>, p: T -> bool)
    requires |s| > 0
    ensures Count(s, p) == Bit(s[0], p) + Count(s[1..], p)
  {
  }

  /** `Count` on a list of two, written out. */
  lemma CountTwo<T>(s: seq<T>, p: T -> bool)
    requires |s| == 2
    ensures Count(s, p) == Bit(s[0], p) + Bit(s[1], p)
  {
    CountCons(s, p);
    CountCons(s[1..], p);
    assert s[1..][1..] == [];
  }

  /** `Count` on a list of four, written out. */
  lemma CountFour<T>(s: seq<T>, p: T -> bool)
    requires |s| == 4
    ensures Count(s, p) == Bit(s[0], p) + Bit(s[1], p) + Bit(s[2], p) + Bit(s[3], p)
  {
    assert s == s[..2] + s[2..];
    CountAppend(s[..2], s[2..], p);
    CountTwo(s[..2], p);
    CountTwo(s[2..], p);
  }

  /** `Count` on a list of eight, written out. */
  lemma CountEight<T>(s: seq<T>, p: T -> bool)
    requires |s| == 8
    ensures Count(s, p) == Bit(s[0], p) + Bit(s[1], p) + Bit(s[2], p) + Bit(s[3], p)
                         + Bit(s[4], p) + Bit(s[5], p) + Bit(s[6], p) + Bit(s[7], p)
  {
    assert s == s[..4] + s[4..];
    CountAppend(s[..4], s[4..], p);
    CountFour(s[..4], p);
    CountFour(s[4..], p);
  }

  /** The count over a concatenation is the sum of the counts. */
  lemma CountAppend<T>(a: seq<T>, b: seq<T>, p: T -> bool)
    ensures Count(a + b, p) == Count(a, p) + Count(b, p)
  {
    FilterAppend(a, b, p);
  }
}
