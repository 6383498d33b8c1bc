/** Sums of a measure over the elements of a sequence, whatever the order of the elements. */
module Sums {

  ghost function SumOf<T>(f: T -> int, s: seq<T>): int {
    if s == [] then 0 else SumOf(f, s[..|s| - 1]) + f(s[|s| - 1])
  }

  lemma SumNone<T>(f: T -> int)
    ensures SumOf(f, []) == 0
  {
  }

  lemma SumOne<T>(f: T -> int, x: T)
    ensures SumOf(f, [x]) == f(x)
  {
    SumAppend(f, [], x);
    assert [] + [x] == [x];
  }

  lemma SumAppend<T>(f: T -> int, s: seq<T>, x: T)
    ensures SumOf(f, s + [x]) == SumOf(f, s) + f(x)
  {
    assert (s + [x])[..|s|] == s;
  }

  lemma {:induction false} SumConcat<T>(f: T -> int, s: seq<T>, t: seq<T>)
    ensures SumOf(f, s + t) == SumOf(f, s) + SumOf(f, t)
  {
    if t == [] {
      assert s + t == s;
    } else {
      var k := |t| - 1;
      SumConcat(f, s, t[..k]);
      assert (s + t)[..|s| + k] == s + t[..k];
    }
  }

  function Without<T>(s: seq<T>, i: nat): seq<T>
    requires i < |s|
  {
    s[..i] + s[i + 1..]
  }

  /** Taking one element out of the middle takes out its share and no other. */
  lemma SumWithout<T>(f: T -> int, s: seq<T>, i: nat)
    requires i < |s|
    ensures SumOf(f, Without(s, i)) == SumOf(f, s) - f(s[i])
  {
    SumConcat(f, s[..i], s[i + 1..]);
    SumAppend(f, s[..i], s[i]);
    SumConcat(f, s[..i] + [s[i]], s[i + 1..]);
    assert s[..i] + [s[i]] + s[i + 1..] == s;
  }

  lemma SumUpdate<T>(f: T -> int, s: seq<T>, i: nat, x: T)
    requires i < |s|
    ensures SumOf(f, s[i := x]) == SumOf(f, s) - f(s[i]) + f(x)
  {
    SumWithout(f, s, i);
    SumWithout(f, s[i := x], i);
    assert Without(s[i := x], i) == Without(s, i);
  }

  lemma {:induction false} SumNonNegative<T>(f: T -> int, s: seq<T>)
    requires forall x :: x in s ==> f(x) >= 0
    ensures SumOf(f, s) >= 0
  {
    if s != [] {
      SumNonNegative(f, s[..|s| - 1]);
    }
  }

  lemma SplitAt<T>(s: seq<T>, i: nat)
    requires i < |s|
    ensures multiset(s) == multiset(Without(s, i)) + multiset{s[i]}
  {
    assert s == s[..i] + [s[i]] + s[i + 1..];
  }

  /** Taking the same element out of two rearrangements leaves rearrangements. */
  lemma WithoutBoth<T>(a: seq<T>, b: seq<T>, i: nat, j: nat)
    requires multiset(a) == multiset(b) && i < |a| && j < |b| && a[i] == b[j]
    ensures multiset(Without(a, i)) == multiset(Without(b, j)) && |Without(a, i)| == |a| - 1
  {
    SplitAt(a, i);
    SplitAt(b, j);
    hide Without;
    assert multiset(Without(a, i)) == multiset(a) - multiset{a[i]};
    assert multiset(Without(b, j)) == multiset(b) - multiset{b[j]};
    WithoutIsShorter(a, i);
  }

  lemma WithoutIsShorter<T>(a: seq<T>, i: nat)
    requires i < |a|
    ensures |Without(a, i)| == |a| - 1
  {
  }

  /** A sum does not depend on the order in which its elements arrived. */
  lemma {:induction false} SumPermutation<T>(f: T -> int, a: seq<T>, b: seq<T>)
    requires multiset(a) == multiset(b)
    ensures SumOf(f, a) == SumOf(f, b)
    decreases |a|
  {
    hide SumOf, Without;
    if a == [] {
      assert |multiset(b)| == |b|;
    } else {
      assert a[0] in multiset(b);
      var i :| 0 <= i < |b| && b[i] == a[0];
      WithoutBoth(a, b, 0, i);
      SumPermutation(f, Without(a, 0), Without(b, i));
      SumWithout(f, a, 0);
      SumWithout(f, b, i);
    }
  }

  // ----- over the values of a map -----

  ghost function SumOfMap<T>(f: T -> int, m: map<nat, T>): int {
    if m == map[] then 0
    else
      var k :| k in m;
      f(m[k]) + SumOfMap(f, m - {k})
  }

  /** Any key may be counted first. */
  lemma {:induction false} SumOfKey<T>(f: T -> int, m: map<nat, T>, k: nat)
    requires k in m
    ensures SumOfMap(f, m) == f(m[k]) + SumOfMap(f, m - {k})
    decreases |m|
  {
    var j :| j in m && SumOfMap(f, m) == f(m[j]) + SumOfMap(f, m - {j});
    if j != k {
      SumOfKey(f, m - {j}, k);
      SumOfKey(f, m - {k}, j);
      assert m - {j} - {k} == m - {k} - {j};
    }
  }

  lemma SumOfMapUpdate<T>(f: T -> int, m: map<nat, T>, k: nat, x: T)
    requires k in m
    ensures SumOfMap(f, m[k := x]) == SumOfMap(f, m) - f(m[k]) + f(x)
  {
    SumOfKey(f, m, k);
    SumOfKey(f, m[k := x], k);
    assert m[k := x] - {k} == m - {k};
  }

  /** Values that grow by at most `d` each. */
  lemma {:induction false} SumOfMapGrows<T>(f: T -> int, g: T -> int, m: map<nat, T>, n: map<nat, T>, d: nat)
    requires m.Keys == n.Keys && forall k :: k in m ==> g(n[k]) <= f(m[k]) + d
    ensures SumOfMap(g, n) <= SumOfMap(f, m) + d * |m|
    decreases |m|
  {
    if m != map[] {
      var k :| k in m;
      SumOfKey(f, m, k);
      SumOfKey(g, n, k);
      hide SumOfMap;
      SumOfMapGrows(f, g, m - {k}, n - {k}, d);
      OneLess(m, k, d);
    } else {
      assert n == map[];
    }
  }

  lemma OneLess<T>(m: map<nat, T>, k: nat, d: nat)
    requires k in m
    ensures |m - {k}| == |m| - 1 && d * |m| == d * |m - {k}| + d
  {
    assert m.Keys == (m - {k}).Keys + {k};
    assert |m| == |m.Keys| && |m - {k}| == |(m - {k}).Keys|;
  }

  lemma {:induction false} SumOfMapAtMost<T>(f: T -> int, m: map<nat, T>, d: nat)
    requires forall k :: k in m ==> f(m[k]) <= d
    ensures SumOfMap(f, m) <= d * |m|
    decreases |m|
  {
    if m != map[] {
      var k :| k in m;
      SumOfKey(f, m, k);
      hide SumOfMap;
      SumOfMapAtMost(f, m - {k}, d);
      OneLess(m, k, d);
    }
  }

  lemma {:induction false} SumOfMapNonNegative<T>(f: T -> int, m: map<nat, T>)
    requires forall k :: k in m ==> f(m[k]) >= 0
    ensures SumOfMap(f, m) >= 0
    decreases |m|
  {
    if m != map[] {
      var k :| k in m;
      SumOfKey(f, m, k);
      SumOfMapNonNegative(f, m - {k});
    }
  }
}
