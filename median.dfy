/**
  `calculate_median` in bot.py: sort the list, then take the middle element,
  or the mean of the two middle elements when the length is even. On an
  empty list the function indexes `sorted_prices[-1]` of an empty list and
  raises IndexError; `None` stands for that exception here.
*/
module Median {
  import opened Basics
  import opened Extremes

  ghost predicate SortedAsc(s: seq<real>) {
    forall i, j :: 0 <= i < j < |s| ==> s[i] <= s[j]
  }

  /** Insert `x` into an ascending list, before the first element not smaller than it. */
  function Insert(x: real, s: seq<real>): (r: seq<real>)
    ensures |r| == |s| + 1
  {
    if s == [] || x <= s[0] then [x] + s
    else [s[0]] + Insert(x, s[1..])
  }

  /** An element placed before an ascending list that it does not exceed
      gives an ascending list. */
  lemma ConsSorted(h: real, t: seq<real>)
    requires SortedAsc(t)
    requires forall j :: 0 <= j < |t| ==> h <= t[j]
    ensures SortedAsc([h] + t)
  {
    var r := [h] + t;
    forall i, j | 0 <= i < j < |r| ensures r[i] <= r[j] {
      if i == 0 {
        assert r[j] == t[j - 1];
      } else {
        assert r[i] == t[i - 1] && r[j] == t[j - 1];
      }
    }
  }

  /** The tail of an ascending list is ascending. */
  lemma TailSorted(s: seq<real>)
    requires SortedAsc(s) && s != []
    ensures SortedAsc(s[1..])
  {
    var tail := s[1..];
    forall i, j | 0 <= i < j < |tail| ensures tail[i] <= tail[j] {
      assert tail[i] == s[i + 1] && tail[j] == s[j + 1];
    }
  }

  /** No element of the tail of an ascending list is below its head. */
  lemma HeadBelowTail(s: seq<real>)
    requires SortedAsc(s) && s != []
    ensures forall y :: y in multiset(s[1..]) ==> s[0] <= y
  {
    var tail := s[1..];
    forall y | y in multiset(tail) ensures s[0] <= y {
      assert y in tail;
      var k :| 0 <= k < |tail| && tail[k] == y;
      assert s[0] <= s[k + 1];
    }
  }

  /** Two lists with the same elements and the same head have tails with the same elements. */
  lemma SameTailElements(a: seq<real>, b: seq<real>)
    requires a != [] && b != [] && a[0] == b[0] && multiset(a) == multiset(b)
    ensures multiset(a[1..]) == multiset(b[1..])
  {
    assert a == [a[0]] + a[1..] && b == [b[0]] + b[1..];
    assert multiset(a) == multiset{a[0]} + multiset(a[1..]);
    assert multiset(b) == multiset{a[0]} + multiset(b[1..]);
    assert multiset(a[1..]) == multiset(a) - multiset{a[0]};
    assert multiset(b[1..]) == multiset(b) - multiset{a[0]};
  }

  /** Inserting into an ascending list keeps it ascending and adds exactly `x`. */
  lemma {:induction false} InsertSorted(x: real, s: seq<real>)
    requires SortedAsc(s)
    ensures SortedAsc(Insert(x, s))
    ensures multiset(Insert(x, s)) == multiset(s) + multiset{x}
  {
    if s == [] || x <= s[0] {
      assert forall j :: 0 <= j < |s| ==> s[0] <= s[j];
      ConsSorted(x, s);
    } else {
      var tail := s[1..];
      assert s == [s[0]] + tail;
      TailSorted(s);
      HeadBelowTail(s);
      var rest := Insert(x, tail);
      InsertSorted(x, tail);
      forall j | 0 <= j < |rest| ensures s[0] <= rest[j] {
        assert rest[j] in multiset(rest);
      }
      ConsSorted(s[0], rest);
      assert Insert(x, s) == [s[0]] + rest;
      assert multiset([s[0]] + rest) == multiset{s[0]} + multiset(rest);
    }
  }

  /** `sorted(prices)`: insertion sort. */
  function Sort(s: seq<real>): (r: seq<real>)
    ensures |r| == |s|
  {
    if s == [] then []
    else Insert(s[0], Sort(s[1..]))
  }

  /** `Sort` returns the ascending permutation of its input. */
  lemma {:induction false} SortSorted(s: seq<real>)
    ensures SortedAsc(Sort(s))
    ensures multiset(Sort(s)) == multiset(s)
  {
    if s != [] {
      assert s == [s[0]] + s[1..];
      SortSorted(s[1..]);
      InsertSorted(s[0], Sort(s[1..]));
    }
  }

  /** The head of an ascending list is at most each of its elements. */
  lemma HeadIsLeast(s: seq<real>, x: real)
    requires SortedAsc(s) && x in multiset(s)
    ensures s[0] <= x
  {
    assert x in s;
    var j :| 0 <= j < |s| && s[j] == x;
  }

  /** Two ascending lists with the same elements are equal: sorting is canonical. */
  lemma {:induction false} SortedUnique(a: seq<real>, b: seq<real>)
    requires SortedAsc(a) && SortedAsc(b) && multiset(a) == multiset(b)
    ensures a == b
  {
    assert |a| == |multiset(a)| == |multiset(b)| == |b|;
    if a != [] {
      HeadIsLeast(a, b[0]);
      HeadIsLeast(b, a[0]);
      TailSorted(a);
      TailSorted(b);
      SameTailElements(a, b);
      SortedUnique(a[1..], b[1..]);
      assert a == [a[0]] + a[1..] && b == [b[0]] + b[1..];
    }
  }

  /** `calculate_median(prices)`; `None` when the list is empty (the IndexError). */
  function CalculateMedian(prices: seq<real>): (r: Option<real>)
    ensures r.None? <==> prices == []
  {
    var sorted := Sort(prices);
    var n := |sorted|;
    var mid := n / 2;
    if n % 2 == 0 then
      if n == 0 then None
      else Some((sorted[mid - 1] + sorted[mid]) / 2.0)
    else Some(sorted[mid])
  }

  /** The median lies between the smallest and the largest value. */
  lemma MedianWithinRange(prices: seq<real>)
    requires prices != []
    ensures MinOf(prices) <= CalculateMedian(prices).value <= MaxOf(prices)
  {
    var sorted := Sort(prices);
    SortSorted(prices);
    var mid := |sorted| / 2;
    assert sorted[mid] in multiset(prices);
    if |sorted| % 2 == 0 {
      assert sorted[mid - 1] in multiset(prices);
    }
  }

  /** The median depends only on the values, not on their order in the list. */
  lemma MedianOrderIndependent(a: seq<real>, b: seq<real>)
    requires multiset(a) == multiset(b)
    ensures CalculateMedian(a) == CalculateMedian(b)
  {
    SortSorted(a);
    SortSorted(b);
    SortedUnique(Sort(a), Sort(b));
  }

  /** For an odd count the median is one of the values. */
  lemma MedianOfOddCountIsAValue(prices: seq<real>)
    requires |prices| % 2 == 1
    ensures CalculateMedian(prices).Some? && CalculateMedian(prices).value in prices
  {
    var sorted := Sort(prices);
    SortSorted(prices);
    assert sorted[|sorted| / 2] in multiset(prices);
  }

  /** Sorting leaves an ascending list as it is. */
  lemma SortIsIdentityOnAscending(s: seq<real>)
    requires SortedAsc(s)
    ensures Sort(s) == s
  {
    SortSorted(s);
    SortedUnique(Sort(s), s);
  }

  /** On a list that is already ascending, the median is its middle element,
      or the mean of its two middle elements when the length is even. */
  lemma MedianOfAscending(s: seq<real>)
    requires SortedAsc(s) && |s| > 0
    ensures |s| % 2 == 1 ==> CalculateMedian(s) == Some(s[|s| / 2])
    ensures |s| % 2 == 0 ==> CalculateMedian(s) == Some((s[|s| / 2 - 1] + s[|s| / 2]) / 2.0)
  {
    SortIsIdentityOnAscending(s);
  }

  /** `calculate_median([1, 2, 3])` is 2. */
  lemma MedianOddExample()
    ensures CalculateMedian([1.0, 2.0, 3.0]) == Some(2.0)
  {
    var odd := [1.0, 2.0, 3.0];
    assert SortedAsc(odd);
    MedianOfAscending(odd);
    assert odd[1] == 2.0;
  }

  /** `calculate_median([1, 2, 3, 4])` is 2.5. */
  lemma MedianEvenExample()
    ensures CalculateMedian([1.0, 2.0, 3.0, 4.0]) == Some(2.5)
  {
    var even := [1.0, 2.0, 3.0, 4.0];
    assert SortedAsc(even);
    MedianOfAscending(even);
    assert (even[1] + even[2]) / 2.0 == 2.5;
  }

  /** The median of the unsorted list [20, -10, 40] is 20. */
  lemma MedianOfThreeCallsExample()
    ensures CalculateMedian([20.0, -10.0, 40.0]) == Some(20.0)
  {
    var sorted := [-10.0, 20.0, 40.0];
    assert SortedAsc(sorted);
    MedianOfAscending(sorted);
    assert sorted[1] == 20.0;
    assert multiset([20.0, -10.0, 40.0]) == multiset(sorted);
    MedianOrderIndependent([20.0, -10.0, 40.0], sorted);
  }
}
