/** Sequence operations that stand for the .NET list and array helpers used by the mods. */
module Seqs {

  /** Array.IndexOf / List.IndexOf: the first position holding x, or -1. */
  function IndexOf<T(==)>(s: seq<T>, x: T): (i: int)
    ensures -1 <= i < |s|
    ensures i == -1 <==> x !in s
    ensures 0 <= i ==> s[i] == x && x !in s[..i]
  {
    if |s| == 0 then -1
    else if s[0] == x then 0
    else
      var j := IndexOf(s[1..], x);
      assert s[1..][..(if j < 0 then 0 else j)] == s[1..1 + (if j < 0 then 0 else j)];
      if j == -1 then -1 else 1 + j
  }

  /** No element occurs twice. */
  predicate Distinct<T(==)>(s: seq<T>)
  {
    forall i, j :: 0 <= i < j < |s| ==> s[i] != s[j]
  }

  lemma IndexOfDistinct<T>(s: seq<T>, k: nat)
    requires Distinct(s) && k < |s|
    ensures IndexOf(s, s[k]) == k
  {
  }

  /** List.RemoveAt(index). */
  function RemoveAt<T>(s: seq<T>, index: nat): (r: seq<T>)
    requires index < |s|
    ensures |r| == |s| - 1
    ensures forall k :: 0 <= k < index ==> r[k] == s[k]
    ensures forall k :: index <= k < |r| ==> r[k] == s[k + 1]
  {
    s[..index] + s[index + 1..]
  }

  /** Removing one element of a list without repeats keeps it without repeats, and that element is gone. */
  lemma RemoveAtDistinct<T>(s: seq<T>, index: nat)
    requires Distinct(s) && index < |s|
    ensures Distinct(RemoveAt(s, index)) && s[index] !in RemoveAt(s, index)
  {
    var r := RemoveAt(s, index);
    forall i, j | 0 <= i < j < |r|
      ensures r[i] != r[j]
    {
      var i', j' := if i < index then i else i + 1, if j < index then j else j + 1;
      assert r[i] == s[i'] && r[j] == s[j'];
    }
    forall k | 0 <= k < |r|
      ensures r[k] != s[index]
    {
      var k' := if k < index then k else k + 1;
      assert r[k] == s[k'];
    }
  }

  /** Enumerable.Sum of an int sequence, without the overflow check. */
  function Sum(s: seq<int>): int
  {
    if |s| == 0 then 0 else Sum(s[..|s| - 1]) + s[|s| - 1]
  }

  lemma SumNonNegative(s: seq<int>)
    requires forall k :: 0 <= k < |s| ==> s[k] >= 0
    ensures Sum(s) >= 0
  {
    if |s| > 0 { SumNonNegative(s[..|s| - 1]); }
  }
}
