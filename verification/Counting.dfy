/** Counting the elements of a sequence below and at a value, and the k-th smallest element in those terms. */
module Counting {
  import opened Sums

  function CountLess(s: seq<int>, v: int): nat {
    if s == [] then 0 else CountLess(s[..|s| - 1], v) + if s[|s| - 1] < v then 1 else 0
  }

  function CountEqual(s: seq<int>, v: int): nat {
    if s == [] then 0 else CountEqual(s[..|s| - 1], v) + if s[|s| - 1] == v then 1 else 0
  }

  ghost predicate Sorted(s: seq<int>) {
    forall i, j :: 0 <= i <= j < |s| ==> s[i] <= s[j]
  }

  /** `v` is the `k`-th smallest element of `s`, counting from 1. */
  ghost predicate IsKth(s: seq<int>, k: int, v: int) {
    CountLess(s, v) < k <= CountLess(s, v) + CountEqual(s, v)
  }

  lemma {:induction false} CountLessConcat(s: seq<int>, t: seq<int>, v: int)
    ensures CountLess(s + t, v) == CountLess(s, v) + CountLess(t, v)
  {
    if t == [] {
      assert s + t == s;
    } else {
      CountLessConcat(s, t[..|t| - 1], v);
      assert (s + t)[..|s + t| - 1] == s + t[..|t| - 1];
    }
  }

  lemma {:induction false} CountNext(s: seq<int>, v: int)
    ensures CountLess(s, v + 1) == CountLess(s, v) + CountEqual(s, v)
  {
    if s != [] {
      CountNext(s[..|s| - 1], v);
    }
  }

  lemma {:induction false} CountMonotone(s: seq<int>, u: int, v: int)
    requires u <= v
    ensures CountLess(s, u) <= CountLess(s, v) <= |s|
  {
    if s != [] {
      CountMonotone(s[..|s| - 1], u, v);
    }
  }

  lemma {:induction false} CountNone(s: seq<int>, v: int)
    requires forall i :: 0 <= i < |s| ==> v <= s[i]
    ensures CountLess(s, v) == 0
  {
    if s != [] {
      CountNone(s[..|s| - 1], v);
    }
  }

  lemma {:induction false} CountAll(s: seq<int>, v: int)
    requires forall i :: 0 <= i < |s| ==> s[i] < v
    ensures CountLess(s, v) == |s|
  {
    if s != [] {
      CountAll(s[..|s| - 1], v);
    }
  }

  /** In a sorted sequence the elements below `v` are exactly a prefix. */
  lemma CountSorted(s: seq<int>, v: int, p: nat)
    requires p <= |s|
    requires forall i :: 0 <= i < p ==> s[i] < v
    requires forall i :: p <= i < |s| ==> v <= s[i]
    ensures CountLess(s, v) == p
  {
    assert s == s[..p] + s[p..];
    CountLessConcat(s[..p], s[p..], v);
    CountAll(s[..p], v);
    CountNone(s[p..], v);
  }

  function Below(v: int): int -> int {
    (x: int) => if x < v then 1 else 0
  }

  lemma {:induction false} CountIsSum(s: seq<int>, v: int)
    ensures CountLess(s, v) == SumOf(Below(v), s)
  {
    if s != [] {
      CountIsSum(s[..|s| - 1], v);
    }
  }

  lemma CountPermutation(s: seq<int>, t: seq<int>, v: int)
    requires multiset(s) == multiset(t)
    ensures CountLess(s, v) == CountLess(t, v)
  {
    CountIsSum(s, v);
    CountIsSum(t, v);
    SumPermutation(Below(v), s, t);
  }

  /** The definition by counting is the usual one: the element at index `k - 1` after sorting. */
  lemma KthBySorting(s: seq<int>, t: seq<int>, k: int, v: int)
    requires multiset(s) == multiset(t) && Sorted(t) && 1 <= k <= |t|
    ensures IsKth(s, k, v) <==> t[k - 1] == v
  {
    CountPermutation(s, t, v);
    CountPermutation(s, t, v + 1);
    CountNext(s, v);
    SortedSplit(t, v, k - 1);
    SortedSplit(t, v + 1, k - 1);
  }

  lemma SortedSplit(t: seq<int>, v: int, i: nat)
    requires Sorted(t) && i < |t|
    ensures CountLess(t, v) <= i <==> v <= t[i]
  {
    var p := FirstNotBelow(t, v, 0);
    CountSorted(t, v, p);
    assert i < p ==> t[i] < v;
  }

  ghost function FirstNotBelow(t: seq<int>, v: int, from: nat): (p: nat)
    requires Sorted(t) && from <= |t| && forall i :: 0 <= i < from ==> t[i] < v
    ensures p <= |t|
    ensures forall i :: 0 <= i < p ==> t[i] < v
    ensures forall i :: p <= i < |t| ==> v <= t[i]
    decreases |t| - from
  {
    if from == |t| || v <= t[from] then from else FirstNotBelow(t, v, from + 1)
  }

  /** What is left of a bisection interval always contains the element sought. */
  lemma Bracket(s: seq<int>, k: int, low: int, high: int)
    requires CountLess(s, low) < k <= CountLess(s, high + 1)
    ensures low <= high
  {
    if high < low {
      CountMonotone(s, high + 1, low);
    }
  }
}
