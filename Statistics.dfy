/** The median used by the swipe classifier: the middle of the sorted samples,
    or the mean of the two middle values when there is an even number of them. */
module Statistics {

  ghost predicate Sorted(s: seq<real>) {
    forall i, j :: 0 <= i < j < |s| ==> s[i] <= s[j]
  }

  /** Prepending a value no larger than the head keeps a sequence sorted. */
  lemma SortedCons(h: real, t: seq<real>)
    requires Sorted(t)
    requires t != [] ==> h <= t[0]
    ensures Sorted([h] + t)
  {
  }

  /** Inserts `x` into the sorted sequence `s`, keeping it sorted. */
  function Insert(x: real, s: seq<real>): (r: seq<real>)
    requires Sorted(s)
    ensures Sorted(r)
    ensures multiset(r) == multiset(s) + multiset{x}
    ensures r[0] == x || (s != [] && r[0] == s[0])
  {
    if s == [] then [x]
    else if x <= s[0] then SortedCons(x, s); [x] + s
    else
      assert s == [s[0]] + s[1..];
      var rest := Insert(x, s[1..]);
      SortedCons(s[0], rest);
      [s[0]] + rest
  }

  /** Ascending order of the samples. */
  function Sort(s: seq<real>): (r: seq<real>)
    ensures Sorted(r)
    ensures multiset(r) == multiset(s)
  {
    if s == [] then []
    else
      assert s == [s[0]] + s[1..];
      Insert(s[0], Sort(s[1..]))
  }

  function Median(s: seq<real>): (m: real)
    requires |s| > 0
  {
    var t := Sort(s);
    assert |t| == |multiset(t)| == |s|;
    var k := |t| / 2;
    if |t| % 2 == 1 then t[k] else (t[k - 1] + t[k]) / 2.0
  }

  /** Two sorted sequences holding the same samples are the same sequence. */
  lemma {:induction false} SortedUnique(a: seq<real>, b: seq<real>)
    requires Sorted(a) && Sorted(b)
    requires multiset(a) == multiset(b)
    ensures a == b
  {
    assert |a| == |multiset(a)| == |multiset(b)| == |b|;
    if a != [] {
      assert a[0] in multiset(b);
      assert b[0] in multiset(a);
      assert a[0] == b[0];
      assert a == [a[0]] + a[1..];
      assert b == [b[0]] + b[1..];
      assert multiset(a[1..]) == multiset(a) - multiset{a[0]};
      assert multiset(b[1..]) == multiset(b) - multiset{b[0]};
      SortedUnique(a[1..], b[1..]);
    }
  }

  /** The median depends only on which samples were taken, not on their order. */
  lemma MedianPermutation(a: seq<real>, b: seq<real>)
    requires |a| > 0
    requires multiset(a) == multiset(b)
    ensures |b| > 0 && Median(a) == Median(b)
  {
    assert |a| == |multiset(a)| == |multiset(b)| == |b|;
    SortedUnique(Sort(a), Sort(b));
  }

  /** The median lies within any bounds that hold of every sample. */
  lemma MedianBounds(s: seq<real>, lo: real, hi: real)
    requires |s| > 0
    requires forall i :: 0 <= i < |s| ==> lo <= s[i] <= hi
    ensures lo <= Median(s) <= hi
  {
    var t := Sort(s);
    assert |t| == |multiset(t)| == |s|;
    forall i | 0 <= i < |t| ensures lo <= t[i] <= hi {
      assert t[i] in multiset(s);
    }
  }

  /** On an odd number of samples the median is one of the samples. */
  lemma MedianOddIsSample(s: seq<real>)
    requires |s| % 2 == 1
    ensures Median(s) in s
  {
    var t := Sort(s);
    assert |t| == |multiset(t)| == |s|;
    assert t[|t| / 2] in multiset(s);
  }
}
