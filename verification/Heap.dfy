/**
 The library heap operations on a vector of records, by their contracts. The comparison of the source is
 reversed, so what the library keeps on top is the smallest element.
 */
module Heap {

  /** `block` stands for the pointer to the block the element was read from. */
  datatype Record = Record(elem: int, block: nat)

  function Parent(i: nat): nat
    requires i > 0
  {
    (i - 1) / 2
  }

  predicate Ordered(s: seq<Record>, i: nat)
    requires 0 < i < |s|
  {
    s[Parent(i)].elem <= s[i].elem
  }

  ghost predicate IsHeap(s: seq<Record>) {
    forall i :: 0 < i < |s| ==> Ordered(s, i)
  }

  lemma {:induction false} RootIsLeast(s: seq<Record>, i: nat)
    requires IsHeap(s) && i < |s|
    ensures s[0].elem <= s[i].elem
  {
    if i > 0 {
      assert Ordered(s, i);
      RootIsLeast(s, Parent(i));
    }
  }

  function Swapped(s: seq<Record>, i: nat, j: nat): (t: seq<Record>)
    requires i < |s| && j < |s|
    ensures |t| == |s| && multiset(t) == multiset(s)
  {
    s[i := s[j]][j := s[i]]
  }

  /** A heap but for one element, which may be smaller than its parent. */
  ghost predicate HeapExceptUp(s: seq<Record>, i: nat)
    requires i < |s|
  {
    && (forall j :: 0 < j < |s| && j != i ==> Ordered(s, j))
    && (forall j :: 0 < j < |s| && Parent(j) == i && i > 0 ==> s[Parent(i)].elem <= s[j].elem)
  }

  lemma SiftUpStep(s: seq<Record>, i: nat)
    requires 0 < i < |s| && HeapExceptUp(s, i) && !Ordered(s, i)
    ensures HeapExceptUp(Swapped(s, i, Parent(i)), Parent(i))
  {
    var p := Parent(i);
    var t := Swapped(s, i, p);
    forall j | 0 < j < |t| && j != p
      ensures Ordered(t, j)
    {
      if j != i {
        assert Ordered(s, j);
      }
    }
    forall j | 0 < j < |t| && Parent(j) == p && p > 0
      ensures t[Parent(p)].elem <= t[j].elem
    {
      assert Ordered(s, p);
      if j != i {
        assert Ordered(s, j);
      }
    }
  }

  /** `std::push_heap`: the last element is sifted up. */
  method PushHeap(s: seq<Record>) returns (t: seq<Record>)
    requires s != [] && IsHeap(s[..|s| - 1])
    ensures IsHeap(t) && multiset(t) == multiset(s)
  {
    t := s;
    var i: nat := |s| - 1;
    forall j | 0 < j < |s| && j != i
      ensures Ordered(s, j)
    {
      assert Ordered(s[..|s| - 1], j);
    }
    while i > 0 && !Ordered(t, i)
      invariant i < |t| && multiset(t) == multiset(s) && |t| == |s|
      invariant HeapExceptUp(t, i)
    {
      SiftUpStep(t, i);
      t := Swapped(t, i, Parent(i));
      i := Parent(i);
    }
  }

  /** The first `n` elements are a heap but for one element, which may be larger than its children. */
  ghost predicate HeapExceptDown(s: seq<Record>, n: nat, i: nat)
    requires n <= |s|
  {
    && (forall j :: 0 < j < n && Parent(j) != i ==> Ordered(s, j))
    && (forall j :: 0 < j < n && Parent(j) == i && 0 < i < n ==> s[Parent(i)].elem <= s[j].elem)
  }

  /** The smaller child of `i` among the first `n` elements, or `i` if no child is smaller than it. */
  function SmallerChild(s: seq<Record>, n: nat, i: nat): (c: nat)
    requires i < n <= |s|
    ensures c == i || (c < n && 0 < c && Parent(c) == i && s[c].elem < s[i].elem)
    ensures forall j :: 0 < j < n && Parent(j) == i ==> s[c].elem <= s[j].elem
  {
    var l, r := 2 * i + 1, 2 * i + 2;
    if r < n && s[r].elem < s[l].elem && s[r].elem < s[i].elem then r
    else if l < n && s[l].elem < s[i].elem then l
    else i
  }

  lemma SiftDownStep(s: seq<Record>, n: nat, i: nat)
    requires i < n <= |s| && HeapExceptDown(s, n, i) && SmallerChild(s, n, i) != i
    ensures var c := SmallerChild(s, n, i); HeapExceptDown(Swapped(s, i, c), n, c)
  {
    var c := SmallerChild(s, n, i);
    var t := Swapped(s, i, c);
    forall j | 0 < j < n && Parent(j) != c
      ensures Ordered(t, j)
    {
      if j == i {
        assert s[Parent(i)].elem <= s[c].elem;
      } else if Parent(j) != i {
        assert Ordered(s, j);
      }
    }
    forall j | 0 < j < n && Parent(j) == c
      ensures t[Parent(c)].elem <= t[j].elem
    {
      assert Ordered(s, j);
    }
  }

  /** Sift the top of the first `n` elements down; the others stay where they are. */
  method SiftDown(s: seq<Record>, n: nat) returns (t: seq<Record>)
    requires n <= |s| && HeapExceptDown(s, n, 0)
    ensures |t| == |s| && multiset(t) == multiset(s) && t[n..] == s[n..]
    ensures IsHeap(t[..n])
  {
    t := s;
    var i := 0;
    while i < n && SmallerChild(t, n, i) != i
      invariant |t| == |s| && multiset(t) == multiset(s) && t[n..] == s[n..]
      invariant HeapExceptDown(t, n, i)
      decreases n - i
    {
      SiftDownStep(t, n, i);
      var c := SmallerChild(t, n, i);
      t := Swapped(t, i, c);
      i := c;
    }
    SiftedDown(t, n, i);
  }

  lemma SiftedDown(t: seq<Record>, n: nat, i: nat)
    requires n <= |t| && HeapExceptDown(t, n, i) && (i < n ==> SmallerChild(t, n, i) == i)
    ensures IsHeap(t[..n])
  {
    forall j | 0 < j < n
      ensures Ordered(t[..n], j)
    {
      assert Ordered(t, j);
    }
  }

  /** `std::pop_heap`: the top goes to the back, and the rest is a heap again. */
  method PopHeap(s: seq<Record>) returns (t: seq<Record>)
    requires s != [] && IsHeap(s)
    ensures |t| == |s| && multiset(t) == multiset(s)
    ensures t[|t| - 1] == s[0] && IsHeap(t[..|t| - 1])
  {
    var n := |s| - 1;
    t := Swapped(s, 0, n);
    SwappedOut(s, t);
    ghost var last := t[n..];
    t := SiftDown(t, n);
    assert t[n] == last[0];
  }

  lemma SwappedOut(s: seq<Record>, t: seq<Record>)
    requires s != [] && IsHeap(s) && t == Swapped(s, 0, |s| - 1)
    ensures HeapExceptDown(t, |s| - 1, 0)
  {
    forall j | 0 < j < |s| - 1 && Parent(j) != 0
      ensures Ordered(t, j)
    {
      assert Ordered(s, j);
    }
  }

  /** `std::make_heap`. */
  method MakeHeap(s: seq<Record>) returns (t: seq<Record>)
    ensures IsHeap(t) && multiset(t) == multiset(s)
  {
    t := [];
    for k := 0 to |s|
      invariant IsHeap(t) && multiset(t) == multiset(s[..k])
    {
      assert (t + [s[k]])[..|t|] == t;
      assert s[..k + 1] == s[..k] + [s[k]];
      t := PushHeap(t + [s[k]]);
    }
    assert s[..|s|] == s;
  }
}
