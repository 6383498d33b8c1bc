/**
 The k-th element server: numbers spread over shards, one per worker thread, and a query answered by
 counting in all shards at once behind a count-down latch.
 */
module KthServer {
  import opened Common
  import opened Counting
  import opened Sums
  import opened KthSystem
  import StdSort

  // ----- binary search in a sorted shard -----

  /** `std::lower_bound`: the first position not below `v`. */
  method LowerBound(s: seq<int>, v: int) returns (p: nat)
    requires Sorted(s)
    ensures p == CountLess(s, v)
  {
    p := 0;
    var high := |s|;
    while p < high
      invariant p <= high <= |s|
      invariant forall i :: 0 <= i < p ==> s[i] < v
      invariant forall i :: high <= i < |s| ==> v <= s[i]
    {
      var mid := (p + high) / 2;
      if s[mid] < v {
        p := mid + 1;
      } else {
        high := mid;
      }
    }
    CountSorted(s, v, p);
  }

  /** `std::upper_bound`: the first position above `v`. */
  method UpperBound(s: seq<int>, v: int) returns (p: nat)
    requires Sorted(s)
    ensures p == CountLess(s, v) + CountEqual(s, v)
  {
    p := 0;
    var high := |s|;
    while p < high
      invariant p <= high <= |s|
      invariant forall i :: 0 <= i < p ==> s[i] <= v
      invariant forall i :: high <= i < |s| ==> v < s[i]
    {
      var mid := (p + high) / 2;
      if v < s[mid] {
        high := mid;
      } else {
        p := mid + 1;
      }
    }
    CountNext(s, v);
    CountSorted(s, v + 1, p);
  }

  /** What one worker adds to the two shared totals. */
  method CountShard(s: seq<int>, guess: int) returns (less: nat, equal: nat)
    requires Sorted(s)
    ensures less == CountLess(s, guess) && equal == CountEqual(s, guess)
  {
    var lower := LowerBound(s, guess);
    var upper := UpperBound(s, guess);
    less, equal := lower, upper - lower;
  }

  // ----- the shards together -----

  lemma {:induction false} AppendToShard(data: seq<seq<int>>, i: nat, x: int)
    requires i < |data|
    ensures multiset(Flatten(data[i := data[i] + [x]])) == multiset(Flatten(data)) + multiset{x}
  {
    var k := |data| - 1;
    var after := data[i := data[i] + [x]];
    if i == k {
      assert after[..k] == data[..k];
      assert Flatten(after) == Flatten(data[..k]) + (data[k] + [x]);
      assert Flatten(data[..k]) + (data[k] + [x]) == Flatten(data) + [x];
    } else {
      AppendToShard(data[..k], i, x);
      assert after[..k] == data[..k][i := data[i] + [x]];
    }
  }

  lemma {:induction false} SortShards(data: seq<seq<int>>, sorted: seq<seq<int>>)
    requires |sorted| == |data| && forall i :: 0 <= i < |data| ==> multiset(sorted[i]) == multiset(data[i])
    ensures multiset(Flatten(sorted)) == multiset(Flatten(data))
  {
    if data != [] {
      var k := |data| - 1;
      SortShards(data[..k], sorted[..k]);
      assert multiset(sorted[k]) == multiset(data[k]);
    }
  }

  lemma {:induction false} FlattenEmpty(data: seq<seq<int>>)
    requires forall i :: 0 <= i < |data| ==> data[i] == []
    ensures Flatten(data) == []
  {
    if data != [] {
      FlattenEmpty(data[..|data| - 1]);
    }
  }

  function Identity(): int -> int {
    (x: int) => x
  }

  lemma {:induction false} SumElemsIsSum(s: seq<int>)
    ensures SumElems(s) == SumOf(Identity(), s)
  {
    if s != [] {
      SumElemsIsSum(s[..|s| - 1]);
    }
  }

  lemma SameMembers(s: seq<int>, t: seq<int>)
    requires multiset(s) == multiset(t)
    ensures forall x :: x in s <==> x in t
  {
    forall x
      ensures x in s <==> x in t
    {
      assert x in s <==> x in multiset(s);
      assert x in t <==> x in multiset(t);
    }
  }

  /** The state a server tells depends only on which numbers it holds, not on how they are arranged. */
  lemma StatePermutation(s: seq<int>, t: seq<int>)
    requires multiset(s) == multiset(t) && s != [] && t != []
    ensures StateOf(s) == StateOf(t)
  {
    SumElemsIsSum(s);
    SumElemsIsSum(t);
    SumPermutation(Identity(), s, t);
    assert |multiset(s)| == |s| && |multiset(t)| == |t|;
    MinMaxElem(s);
    MinMaxElem(t);
    SameMembers(s, t);
  }

  /** One more number changes the state as `generateOne` does. */
  lemma StateAppend(s: seq<int>, x: int)
    ensures StateOf(s + [x]) ==
      if s == [] then State(x, 1, x, x)
      else State(SumElems(s) + x, |s| + 1,
                 if MinElem(s) > x then x else MinElem(s),
                 if MaxElem(s) < x then x else MaxElem(s))
  {
    assert (s + [x])[..|s|] == s;
  }

  // ----- the server -----

  /** The number made of one draw of `nrand48`. */
  function Value(min0: int, range: int, draw: nat): int {
    if range > 0 then min0 + draw % range else min0
  }

  /** The numbers made of the first draws, each used once, in their order. */
  function Made(count: nat, min0: int, max0: int, draws: seq<nat>): (s: seq<int>)
    requires count <= |draws|
    ensures |s| == count
    ensures forall i :: 0 <= i < count ==> s[i] == if max0 > min0 then min0 + draws[i] % (max0 - min0) else min0
  {
    seq(count, i requires 0 <= i < count => Value(min0, max0 - min0, draws[i]))
  }

  ghost predicate Within(s: seq<int>, min0: int, range: int) {
    forall x :: x in s ==> min0 <= x && (x < min0 + range || x == min0)
  }

  /** A running sum, minimum and maximum are those of the numbers held so far. */
  ghost predicate Summed(numbers: seq<seq<int>>, sum: int, min: int, max: int) {
    var all := Flatten(numbers);
    if all == [] then sum == 0 && min == INT64_MAX && max == INT64_MIN
    else StateOf(all) == State(sum, |all|, min, max)
  }

  lemma ValueWithin(min0: int, range: int, draw: nat)
    requires range >= 0
    ensures Within([Value(min0, range, draw)], min0, range)
    ensures min0 <= Value(min0, range, draw) <= min0 + range
  {
  }

  lemma GenerateKeeps(numbers: seq<seq<int>>, sum: int, min: int, max: int, shard: nat, x: int, min0: int, range: int)
    requires shard < |numbers| && Summed(numbers, sum, min, max) && Within(Flatten(numbers), min0, range)
    requires Within([x], min0, range) && INT64_MIN <= x <= INT64_MAX
    ensures var after := numbers[shard := numbers[shard] + [x]];
      && Summed(after, sum + x, if min > x then x else min, if max < x then x else max)
      && |Flatten(after)| == |Flatten(numbers)| + 1
      && multiset(Flatten(after)) == multiset(Flatten(numbers)) + multiset{x}
      && Within(Flatten(after), min0, range)
  {
    hide Flatten, SumElems, MinElem, MaxElem;
    var all, after := Flatten(numbers), Flatten(numbers[shard := numbers[shard] + [x]]);
    AppendToShard(numbers, shard, x);
    OneMore(all, after, x);
    StateAppend(all, x);
    StatePermutation(all + [x], after);
    WithinOneMore(all, after, x, min0, range);
  }

  lemma OneMore(s: seq<int>, t: seq<int>, x: int)
    requires multiset(t) == multiset(s) + multiset{x}
    ensures multiset(s + [x]) == multiset(t) && |t| == |s| + 1 && t != []
  {
    assert |multiset(t)| == |t| && |multiset(s)| == |s|;
  }

  lemma WithinOneMore(s: seq<int>, t: seq<int>, x: int, min0: int, range: int)
    requires multiset(t) == multiset(s) + multiset{x} && Within(s, min0, range) && Within([x], min0, range)
    ensures Within(t, min0, range)
  {
    assert x in [x];
    forall y | y in t ensures y in s || y == x {
      assert y in multiset(t);
    }
  }

  datatype Startup = Ready(server: KthServer) | Fatal(message: string) | Overflows

  class KthServer {
    const nThreads: nat
    const count: int
    var numbers: seq<seq<int>>
    var sum: int
    var min: int
    var max: int

    /** `draws` are the values of `nrand48`, in order. */
    constructor (count: int, nThreads: int, draws: seq<nat>)
      requires 0 < count <= |draws| && 0 < nThreads && count / nThreads <= INT32_MAX
      ensures this.count == count && |numbers| == nThreads
      ensures |Flatten(numbers)| == count && StateOf(Flatten(numbers)) == State(sum, count, min, max)
      ensures Within(Flatten(numbers), 0, INT32_MAX)
      ensures forall i :: 0 <= i < |numbers| ==> Sorted(numbers[i])
      ensures multiset(Flatten(numbers)) == multiset(Made(count, 0, INT32_MAX, draws))
    {
      this.nThreads, this.count := nThreads, count;
      numbers, sum, min, max := [], 0, INT64_MAX, INT64_MIN;
      new;
      GenerateNumbers(count, 0, INT32_MAX, draws);
      ghost var before := Flatten(numbers);
      SortAll();
      assert |multiset(Flatten(numbers))| == |multiset(before)|;
      SameMembers(before, Flatten(numbers));
      StatePermutation(before, Flatten(numbers));
    }

    /** How a server starts: two arguments are refused, and a share too long for the `int` that counts it overflows. */
    static method Start(count: int, nThreads: int, draws: seq<nat>) returns (r: Startup)
      requires count <= |draws|
      ensures r == Fatal("bad count") <==> count <= 0
      ensures r == Fatal("bad thread number") <==> count > 0 && nThreads <= 0
      ensures r == Overflows <==> count > 0 && nThreads > 0 && count / nThreads > INT32_MAX
      ensures r.Ready? ==> fresh(r.server) && var s := r.server;
        && s.count == count && |s.numbers| == nThreads
        && |Flatten(s.numbers)| == count && StateOf(Flatten(s.numbers)) == State(s.sum, count, s.min, s.max)
        && Within(Flatten(s.numbers), 0, INT32_MAX)
        && (forall i :: 0 <= i < nThreads ==> Sorted(s.numbers[i]))
        && multiset(Flatten(s.numbers)) == multiset(Made(count, 0, INT32_MAX, draws))
    {
      if count <= 0 {
        return Fatal("bad count");
      }
      if nThreads <= 0 {
        return Fatal("bad thread number");
      }
      if count / nThreads > INT32_MAX {
        return Overflows;
      }
      var server := new KthServer(count, nThreads, draws);
      return Ready(server);
    }

    method GenerateOne(shard: nat, min0: int, range: int, draw: nat)
      requires shard < |numbers| && range >= 0
      requires INT64_MIN <= min0 && min0 + range <= INT64_MAX
      requires Summed(numbers, sum, min, max) && Within(Flatten(numbers), min0, range)
      modifies this`numbers, this`sum, this`min, this`max
      ensures Summed(numbers, sum, min, max) && Within(Flatten(numbers), min0, range)
      ensures numbers == old(numbers)[shard := old(numbers)[shard] + [Value(min0, range, draw)]]
      ensures |Flatten(numbers)| == |Flatten(old(numbers))| + 1
      ensures multiset(Flatten(numbers)) == multiset(Flatten(old(numbers))) + multiset{Value(min0, range, draw)}
    {
      hide Value, Summed, Flatten, Within;
      var value := Value(min0, range, draw);
      ValueWithin(min0, range, draw);
      GenerateKeeps(numbers, sum, min, max, shard, value, min0, range);
      sum := sum + value;
      if min > value {
        min := value;
      }
      if max < value {
        max := value;
      }
      numbers := numbers[shard := numbers[shard] + [value]];
    }

    method GenerateNumbers(count: int, min0: int, max0: int, draws: seq<nat>)
      requires 0 < count <= |draws| && nThreads > 0 && count / nThreads <= INT32_MAX
      requires INT64_MIN <= min0 <= max0 <= INT64_MAX
      requires numbers == [] && sum == 0 && min == INT64_MAX && max == INT64_MIN
      modifies this`numbers, this`sum, this`min, this`max
      ensures |numbers| == nThreads && |Flatten(numbers)| == count
      ensures forall i :: 0 <= i < nThreads ==>
        |numbers[i]| == count / nThreads + if i == 0 then count % nThreads else 0
      ensures Summed(numbers, sum, min, max) && Within(Flatten(numbers), min0, max0 - min0)
      ensures var made := Made(count, min0, max0, draws);
        && multiset(Flatten(numbers)) == multiset(made)
        && numbers[0] == ShareOf(made, count / nThreads, 0) + made[count - count % nThreads..]
        && forall t :: 1 <= t < nThreads ==> numbers[t] == ShareOf(made, count / nThreads, t)
    {
      hide Summed, Flatten, Within, Value, Made, ShareOf, Product;
      var vecSize := count / nThreads;
      Quotient(count, nThreads, vecSize);
      MakeShards(min0, max0);
      var used := FillShards(vecSize, count, min0, max0, draws);
      ghost var shares := numbers;
      FillRest(count - Product(nThreads, vecSize), count, min0, max0, draws, used);
      AllFilled(shares, numbers, Made(count, min0, max0, draws), nThreads);
    }

    /** An empty shard for every thread. */
    method MakeShards(min0: int, max0: int)
      requires sum == 0 && min == INT64_MAX && max == INT64_MIN
      modifies this`numbers
      ensures |numbers| == nThreads && (forall t :: 0 <= t < nThreads ==> numbers[t] == [])
      ensures Flatten(numbers) == [] && Summed(numbers, sum, min, max) && Within(Flatten(numbers), min0, max0 - min0)
    {
      numbers := seq(nThreads, _ => []);
      FlattenEmpty(numbers);
    }

    method FillShards(vecSize: nat, count: nat, min0: int, max0: int, draws: seq<nat>) returns (used: nat)
      requires |numbers| == nThreads > 0 && (forall t :: 0 <= t < nThreads ==> numbers[t] == [])
      requires Flatten(numbers) == [] && count <= |draws| && vecSize == count / nThreads
      requires INT64_MIN <= min0 <= max0 <= INT64_MAX
      requires Summed(numbers, sum, min, max) && Within(Flatten(numbers), min0, max0 - min0)
      modifies this`numbers, this`sum, this`min, this`max
      ensures used == Product(nThreads, vecSize) == |Flatten(numbers)| <= count
      ensures var made := Made(count, min0, max0, draws);
        && |numbers| == nThreads
        && (forall t :: 0 <= t < nThreads ==> numbers[t] == ShareOf(made, vecSize, t))
        && multiset(Flatten(numbers)) == multiset(made[..used])
      ensures Summed(numbers, sum, min, max) && Within(Flatten(numbers), min0, max0 - min0)
    {
      hide Summed, Flatten, Within, Value, Made, ShareOf, Product;
      ghost var made := Made(count, min0, max0, draws);
      used := 0;
      Quotient(count, nThreads, vecSize);
      for t := 0 to nThreads
        invariant |numbers| == nThreads && used == |Flatten(numbers)| == Product(t, vecSize) <= count
        invariant forall j :: 0 <= j < nThreads ==> numbers[j] == if j < t then ShareOf(made, vecSize, j) else []
        invariant multiset(Flatten(numbers)) == multiset(made[..used])
        invariant Summed(numbers, sum, min, max) && Within(Flatten(numbers), min0, max0 - min0)
      {
        Share(count, nThreads, t);
        used := FillShard(t, vecSize, count, min0, max0, draws, used);
        ThatShare(made, vecSize, t);
      }
    }

    /** The equal share of one thread. */
    method FillShard(t: nat, vecSize: nat, count: nat, min0: int, max0: int, draws: seq<nat>, from: nat)
      returns (used: nat)
      requires t < |numbers| && numbers[t] == [] && from + vecSize <= count <= |draws|
      requires INT64_MIN <= min0 <= max0 <= INT64_MAX
      requires Summed(numbers, sum, min, max) && Within(Flatten(numbers), min0, max0 - min0)
      requires from == |Flatten(numbers)|
      requires multiset(Flatten(numbers)) == multiset(Made(count, min0, max0, draws)[..from])
      modifies this`numbers, this`sum, this`min, this`max
      ensures used == from + vecSize == |Flatten(numbers)|
      ensures var made := Made(count, min0, max0, draws);
        && numbers == old(numbers)[t := made[from..used]]
        && multiset(Flatten(numbers)) == multiset(made[..used])
      ensures Summed(numbers, sum, min, max) && Within(Flatten(numbers), min0, max0 - min0)
    {
      hide Summed, Flatten, Within, Value, Made;
      ghost var made := Made(count, min0, max0, draws);
      used := from;
      assert made[from..from] == [] && old(numbers)[t := []] == old(numbers);
      for i := 0 to vecSize
        invariant used == from + i == |Flatten(numbers)|
        invariant numbers == old(numbers)[t := made[from..used]]
        invariant multiset(Flatten(numbers)) == multiset(made[..used])
        invariant Summed(numbers, sum, min, max) && Within(Flatten(numbers), min0, max0 - min0)
      {
        NextMade(count, min0, max0, draws, from, used);
        GenerateOne(t, min0, max0 - min0, draws[used]);
        used := used + 1;
      }
    }

    /** What the shares leave goes to the first thread. */
    method FillRest(rest: nat, count: nat, min0: int, max0: int, draws: seq<nat>, from: nat)
      requires |numbers| > 0 && from + rest == count <= |draws|
      requires INT64_MIN <= min0 <= max0 <= INT64_MAX
      requires Summed(numbers, sum, min, max) && Within(Flatten(numbers), min0, max0 - min0)
      requires from == |Flatten(numbers)|
      requires multiset(Flatten(numbers)) == multiset(Made(count, min0, max0, draws)[..from])
      modifies this`numbers, this`sum, this`min, this`max
      ensures var made := Made(count, min0, max0, draws);
        && numbers == old(numbers)[0 := old(numbers)[0] + made[from..count]]
        && |Flatten(numbers)| == count && multiset(Flatten(numbers)) == multiset(made[..count])
      ensures Summed(numbers, sum, min, max) && Within(Flatten(numbers), min0, max0 - min0)
    {
      hide Summed, Flatten, Within, Value, Made;
      ghost var made := Made(count, min0, max0, draws);
      var used := from;
      var remain := rest - 1;
      assert made[from..from] == [] && old(numbers)[0] + [] == old(numbers)[0];
      assert old(numbers)[0 := old(numbers)[0]] == old(numbers);
      while remain >= 0
        invariant -1 <= remain && used == |Flatten(numbers)| == count - 1 - remain
        invariant numbers == old(numbers)[0 := old(numbers)[0] + made[from..used]]
        invariant multiset(Flatten(numbers)) == multiset(made[..used])
        invariant Summed(numbers, sum, min, max) && Within(Flatten(numbers), min0, max0 - min0)
      {
        NextMade(count, min0, max0, draws, from, used);
        GenerateOne(0, min0, max0 - min0, draws[used]);
        assert (old(numbers)[0] + made[from..used]) + [made[used]] == old(numbers)[0] + made[from..used + 1];
        used := used + 1;
        remain := remain - 1;
      }
    }

    method SortAll()
      modifies this`numbers
      ensures |numbers| == |old(numbers)| && multiset(Flatten(numbers)) == multiset(Flatten(old(numbers)))
      ensures forall i :: 0 <= i < |numbers| ==> Sorted(numbers[i]) && multiset(numbers[i]) == multiset(old(numbers)[i])
    {
      ghost var was := numbers;
      for i := 0 to |numbers|
        invariant |numbers| == |was|
        invariant forall j :: 0 <= j < i ==> Sorted(numbers[j]) && multiset(numbers[j]) == multiset(was[j])
        invariant forall j :: i <= j < |was| ==> numbers[j] == was[j]
      {
        var shard := StdSort.Sort(numbers[i]);
        numbers := numbers[i := shard];
      }
      SortShards(was, numbers);
    }
  }

  function Product(m: int, n: int): int {
    m * n
  }

  /** The numbers of thread `t`: as many as each gets, behind those of the threads before it. */
  function ShareOf(made: seq<int>, vecSize: nat, t: nat): seq<int> {
    var from := Product(t, vecSize);
    if 0 <= from && from + vecSize <= |made| then made[from..from + vecSize] else []
  }

  /** Number `i` of thread `t` is made of the draw after `t` whole shares and `i` more. */
  lemma ShareAt(made: seq<int>, n: nat, t: nat, i: nat)
    requires t < n && i < |made| / n
    ensures 0 <= t * (|made| / n) + i < |made| && |ShareOf(made, |made| / n, t)| == |made| / n
    ensures ShareOf(made, |made| / n, t)[i] == made[t * (|made| / n) + i]
  {
    var v := |made| / n;
    Share(|made|, n, t);
    NotNegative(t, v);
    assert Product(t, v) == t * v;
  }

  /** One more of the numbers made. */
  lemma NextMade(count: nat, min0: int, max0: int, draws: seq<nat>, from: nat, used: nat)
    requires from <= used < count <= |draws|
    ensures var made := Made(count, min0, max0, draws);
      && made[used] == Value(min0, max0 - min0, draws[used])
      && made[from..used] + [made[used]] == made[from..used + 1]
      && multiset(made[..used]) + multiset{made[used]} == multiset(made[..used + 1])
  {
    var made := Made(count, min0, max0, draws);
    assert made[..used + 1] == made[..used] + [made[used]];
  }

  lemma ThatShare(made: seq<int>, vecSize: nat, t: nat)
    requires 0 <= Product(t, vecSize) && Product(t, vecSize) + vecSize <= |made|
    ensures made[Product(t, vecSize)..Product(t, vecSize) + vecSize] == ShareOf(made, vecSize, t)
  {
  }

  /** The shares, with the rest behind the first one, are everything. */
  lemma AllFilled(shares: seq<seq<int>>, numbers: seq<seq<int>>, made: seq<int>, n: nat)
    requires n > 0 && |shares| == n
    requires forall t :: 0 <= t < n ==> shares[t] == ShareOf(made, |made| / n, t)
    requires numbers == shares[0 := shares[0] + made[|made| - |made| % n..|made|]]
    ensures made[..|made|] == made
    ensures |numbers| == n && numbers[0] == ShareOf(made, |made| / n, 0) + made[|made| - |made| % n..]
    ensures forall t :: 1 <= t < n ==> numbers[t] == ShareOf(made, |made| / n, t)
    ensures forall t :: 0 <= t < n ==> |numbers[t]| == |made| / n + if t == 0 then |made| % n else 0
  {
    hide ShareOf;
    Lengths(made, n);
    assert made[|made| - |made| % n..|made|] == made[|made| - |made| % n..];
  }

  lemma Lengths(made: seq<int>, n: nat)
    requires n > 0
    ensures |made[|made| - |made| % n..]| == |made| % n
    ensures forall t :: 0 <= t < n ==> |ShareOf(made, |made| / n, t)| == |made| / n
  {
    forall t | 0 <= t < n ensures |ShareOf(made, |made| / n, t)| == |made| / n {
      Share(|made|, n, t);
      NotNegative(t, |made| / n);
    }
  }

  /** The equal shares of the threads never exceed the count. */
  lemma Share(count: int, n: int, t: int)
    requires 0 <= count && 0 <= t < n
    ensures count / n >= 0
    ensures Product(t + 1, count / n) == Product(t, count / n) + count / n
    ensures Product(t + 1, count / n) <= Product(n, count / n) <= count
    ensures count - Product(n, count / n) == count % n
  {
    var v := count / n;
    Quotient(count, n, v);
    hide Product;
    Distribute(t, 1, v);
    Distribute(t + 1, n - t - 1, v);
    NotNegative(n - t - 1, v);
  }

  lemma Quotient(count: int, n: int, v: int)
    requires 0 <= count && 0 < n && v == count / n
    ensures 0 <= v && Product(n, v) == count - count % n <= count && Product(1, v) == v && Product(0, v) == 0
  {
    assert count == n * v + count % n;
  }

  lemma Distribute(a: int, b: int, v: int)
    ensures Product(a + b, v) == Product(a, v) + Product(b, v)
  {
  }

  lemma NotNegative(a: int, v: int)
    requires a >= 0 && v >= 0
    ensures Product(a, v) >= 0
  {
  }

  // ----- a query: all workers, one latch -----

  datatype Main = Submitting(next: nat) | Checking | Blocked | Resumed

  /**
   `count` is the latch; `less` and `equal` are the shared totals; the flags tell how far each worker is in
   its task, which adds to `less`, adds to `equal`, and counts the latch down.
   */
  datatype Query = Query(
    guess: int,
    count: int,
    less: int,
    equal: int,
    addedLess: seq<bool>,
    addedEqual: seq<bool>,
    counted: seq<bool>,
    main: Main)

  datatype Step = Submit | AddLess(i: nat) | AddEqual(i: nat) | CountDown(i: nat) | Check | SpuriousWake

  function Start(n: nat, guess: int): Query {
    Query(guess, n, 0, 0, seq(n, _ => false), seq(n, _ => false), seq(n, _ => false), Submitting(0))
  }

  predicate Shaped(numbers: seq<seq<int>>, q: Query) {
    |q.addedLess| == |q.addedEqual| == |q.counted| == |numbers|
  }

  predicate Queued(numbers: seq<seq<int>>, q: Query, i: nat) {
    i < |numbers| && (q.main.Submitting? ==> i < q.main.next)
  }

  predicate CanStep(numbers: seq<seq<int>>, q: Query, step: Step)
    requires Shaped(numbers, q)
  {
    match step
    case Submit => q.main.Submitting?
    case AddLess(i) => Queued(numbers, q, i) && !q.addedLess[i]
    case AddEqual(i) => Queued(numbers, q, i) && q.addedLess[i] && !q.addedEqual[i]
    case CountDown(i) => Queued(numbers, q, i) && q.addedEqual[i] && !q.counted[i]
    case Check => q.main.Checking?
    case SpuriousWake => q.main.Blocked?
  }

  function StepQuery(numbers: seq<seq<int>>, q: Query, step: Step): Query
    requires Shaped(numbers, q) && CanStep(numbers, q, step)
  {
    match step
    case Submit =>
      q.(main := if q.main.next < |numbers| then Submitting(q.main.next + 1) else Checking)
    case AddLess(i) =>
      q.(less := q.less + CountLess(numbers[i], q.guess), addedLess := q.addedLess[i := true])
    case AddEqual(i) =>
      q.(equal := q.equal + CountEqual(numbers[i], q.guess), addedEqual := q.addedEqual[i := true])
    case CountDown(i) =>
      q.(count := q.count - 1,
         counted := q.counted[i := true],
         main := if q.count - 1 <= 0 && q.main.Blocked? then Checking else q.main)
    case Check =>
      q.(main := if q.count > 0 then Blocked else Resumed)
    case SpuriousWake =>
      q.(main := Checking)
  }

  ghost predicate QueryInv(numbers: seq<seq<int>>, q: Query) {
    && Shaped(numbers, q)
    && q.count == |numbers| - Heard(One(), numbers, q.counted)
    && q.less == Heard(Less(q.guess), numbers, q.addedLess)
    && q.equal == Heard(Equal(q.guess), numbers, q.addedEqual)
    && (forall i :: 0 <= i < |numbers| ==> (q.counted[i] ==> q.addedEqual[i]) && (q.addedEqual[i] ==> q.addedLess[i]))
    && (q.main.Blocked? ==> q.count > 0)
    && (q.main.Resumed? ==> q.count == 0)
    && (q.main.Submitting? ==> q.main.next <= |numbers|)
  }

  lemma StartKeeps(numbers: seq<seq<int>>, guess: int)
    ensures QueryInv(numbers, Start(|numbers|, guess))
  {
    var flags := seq(|numbers|, _ => false);
    HearNone(One(), numbers, flags);
    HearNone(Less(guess), numbers, flags);
    HearNone(Equal(guess), numbers, flags);
  }

  lemma StepQueryKeeps(numbers: seq<seq<int>>, q: Query, step: Step)
    requires QueryInv(numbers, q) && CanStep(numbers, q, step)
    ensures QueryInv(numbers, StepQuery(numbers, q, step))
  {
    HeardCount(numbers, q.counted);
    match step {
      case AddLess(i) => HearOne(Less(q.guess), numbers, q.addedLess, i);
      case AddEqual(i) => HearOne(Equal(q.guess), numbers, q.addedEqual, i);
      case CountDown(i) =>
        HearOne(One(), numbers, q.counted, i);
        HeardCount(numbers, q.counted[i := true]);
      case _ =>
    }
  }

  ghost predicate CanRunQuery(numbers: seq<seq<int>>, q: Query, steps: seq<Step>)
    requires Shaped(numbers, q)
    decreases |steps|
  {
    steps == [] || (CanStep(numbers, q, steps[0]) && CanRunQuery(numbers, StepQuery(numbers, q, steps[0]), steps[1..]))
  }

  ghost function AfterQuery(numbers: seq<seq<int>>, q: Query, steps: seq<Step>): Query
    requires Shaped(numbers, q) && CanRunQuery(numbers, q, steps)
    decreases |steps|
  {
    if steps == [] then q else AfterQuery(numbers, StepQuery(numbers, q, steps[0]), steps[1..])
  }

  lemma {:induction false} QueryRunKeeps(numbers: seq<seq<int>>, q: Query, steps: seq<Step>)
    requires QueryInv(numbers, q) && CanRunQuery(numbers, q, steps)
    ensures QueryInv(numbers, AfterQuery(numbers, q, steps))
    ensures AfterQuery(numbers, q, steps).guess == q.guess
    decreases |steps|
  {
    if steps != [] {
      StepQueryKeeps(numbers, q, steps[0]);
      QueryRunKeeps(numbers, StepQuery(numbers, q, steps[0]), steps[1..]);
    }
  }

  /** However the workers interleave, the latch lets go only after all of them, and then the totals are the answer. */
  lemma ResumedMeansAnswered(numbers: seq<seq<int>>, guess: int, steps: seq<Step>)
    requires CanRunQuery(numbers, Start(|numbers|, guess), steps)
    ensures var q := AfterQuery(numbers, Start(|numbers|, guess), steps);
      q.main.Resumed? ==>
        && |q.counted| == |numbers|
        && (forall i :: 0 <= i < |numbers| ==> q.counted[i])
        && Answer(guess, q.less, q.equal) == AnswerOf(Flatten(numbers), guess)
  {
    var q := AfterQuery(numbers, Start(|numbers|, guess), steps);
    StartKeeps(numbers, guess);
    QueryRunKeeps(numbers, Start(|numbers|, guess), steps);
    if q.main.Resumed? {
      HeardCount(numbers, q.counted);
      HeardAll(numbers, q.addedLess, guess);
      HeardAll(numbers, q.addedEqual, guess);
    }
  }

  /** No wake-up is lost: a run whose only possible step is a spurious wake-up has none, and has resumed. */
  lemma StuckMeansResumed(numbers: seq<seq<int>>, guess: int, steps: seq<Step>)
    requires CanRunQuery(numbers, Start(|numbers|, guess), steps)
    ensures var q := AfterQuery(numbers, Start(|numbers|, guess), steps);
      && Shaped(numbers, q)
      && ((forall step :: CanStep(numbers, q, step) ==> step.SpuriousWake?) ==> q.main.Resumed?)
  {
    var q := AfterQuery(numbers, Start(|numbers|, guess), steps);
    StartKeeps(numbers, guess);
    QueryRunKeeps(numbers, Start(|numbers|, guess), steps);
    if (forall step :: CanStep(numbers, q, step) ==> step.SpuriousWake?) && !q.main.Resumed? {
      assert !CanStep(numbers, q, Submit) && !CanStep(numbers, q, Check);
      forall i | 0 <= i < |numbers|
        ensures q.counted[i]
      {
        assert !CanStep(numbers, q, AddLess(i)) && !CanStep(numbers, q, AddEqual(i))
            && !CanStep(numbers, q, CountDown(i));
      }
      HeardCount(numbers, q.counted);
    }
  }
}
