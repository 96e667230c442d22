/**
 * List.Sort with a comparison that puts larger keys first: the calculator
 * sorts its results by `y.Key.CompareTo(x.Key)`. The .NET sort is not
 * stable, so all that any conforming run promises is a permutation of the
 * input ordered by non-increasing key; this module gives one such sort and
 * proves both halves of that promise.
 */
module Sorting {
  import Numeric

  /** Non-increasing by key in the order of double.CompareTo. */
  predicate SortedDescending<T>(s: seq<T>, key: T -> Numeric.Double)
  {
    forall i, j :: 0 <= i < j < |s| ==> Numeric.AtMost(key(s[j]), key(s[i]))
  }

  /** Every key in s is at most b. */
  predicate AllAtMost<T>(s: seq<T>, b: Numeric.Double, key: T -> Numeric.Double)
  {
    forall j :: 0 <= j < |s| ==> Numeric.AtMost(key(s[j]), b)
  }

  /** Puts x in front of the first element whose key is not larger than x's. */
  function Insert<T>(s: seq<T>, x: T, key: T -> Numeric.Double): (r: seq<T>)
    requires SortedDescending(s, key)
    ensures multiset(r) == multiset(s) + multiset{x}
    ensures SortedDescending(r, key)
  {
    InsertSorted(s, x, key);
    InsertRaw(s, x, key)
  }

  function InsertRaw<T>(s: seq<T>, x: T, key: T -> Numeric.Double): (r: seq<T>)
    ensures multiset(r) == multiset(s) + multiset{x}
  {
    if |s| == 0 then [x]
    else if Numeric.AtMost(key(s[0]), key(x)) then [x] + s
    else
      assert s == [s[0]] + s[1..];
      [s[0]] + InsertRaw(s[1..], x, key)
  }

  lemma {:induction false} InsertSorted<T>(s: seq<T>, x: T, key: T -> Numeric.Double)
    requires SortedDescending(s, key)
    ensures SortedDescending(InsertRaw(s, x, key), key)
    ensures forall b :: AllAtMost(s, b, key) && Numeric.AtMost(key(x), b) ==> AllAtMost(InsertRaw(s, x, key), b, key)
  {
    if |s| == 0 {
    } else if Numeric.AtMost(key(s[0]), key(x)) {
      TopBoundsAll(s, key(x), key);
    } else {
      Numeric.AtMostTotal(key(s[0]), key(x));
      InsertSorted(s[1..], x, key);
      var rest := InsertRaw(s[1..], x, key);
      assert AllAtMost(s[1..], key(s[0]), key);
      assert AllAtMost(rest, key(s[0]), key);
    }
  }

  /** In a sorted sequence, a bound on the first key bounds every key. */
  lemma TopBoundsAll<T>(s: seq<T>, b: Numeric.Double, key: T -> Numeric.Double)
    requires SortedDescending(s, key) && |s| > 0 && Numeric.AtMost(key(s[0]), b)
    ensures AllAtMost(s, b, key)
  {
    forall j | 0 < j < |s| ensures Numeric.AtMost(key(s[j]), b) {
      Numeric.AtMostTransitive(key(s[j]), key(s[0]), b);
    }
  }

  /** Insertion sort: a permutation of s in non-increasing key order. */
  function SortDescending<T>(s: seq<T>, key: T -> Numeric.Double): (r: seq<T>)
    ensures multiset(r) == multiset(s)
    ensures SortedDescending(r, key)
  {
    if |s| == 0 then []
    else
      assert s == s[..|s| - 1] + [s[|s| - 1]];
      Insert(SortDescending(s[..|s| - 1], key), s[|s| - 1], key)
  }
}
