/**
 The client of the distributed k-th element program: it merges the servers' states, clamps `k`, and
 bisects the value range, one round of queries and answers per guess.
 */
module KthClient {
  import opened Common
  import opened Counting

  const TWO64: int := 0x1_0000_0000_0000_0000

  function ToUint64(x: int): nat {
    x % TWO64
  }

  function ToInt64(u: int): int
    requires 0 <= u < TWO64
  {
    if u <= INT64_MAX then u else u - TWO64
  }

  /** `low + static_cast<uint64_t>(high - low) / 2`: the sum is unsigned and is converted back. */
  function FirstGuess(low: int, high: int): int {
    ToInt64((ToUint64(low) + ToUint64(high - low) / 2) % TWO64)
  }

  /** The cast changes nothing as long as the two subtractions of the source do not overflow. */
  lemma FirstGuessIsMiddle(low: int, high: int)
    requires INT64_MIN <= low <= high <= INT64_MAX && high - low <= INT64_MAX
    ensures FirstGuess(low, high) == low + (high - low) / 2
  {
    assert ToUint64(high - low) == high - low;
    if low < 0 {
      assert ToUint64(low) == low + TWO64;
    }
  }

  function ClampK(k: int, total: int): int {
    if k <= 0 then (total + 1) / 2 else if k > total then total else k
  }

  /** The fields of the client. `assertsHold` is false once an assertion of the source has failed. */
  datatype Client = Client(
    servers: nat,
    kth: int,
    sum: int,
    totalCount: int,
    min: int,
    max: int,
    nServerState: nat,
    low: int,
    high: int,
    guess: int,
    nLess: int,
    nEqual: int,
    nAnswered: nat,
    nIteration: nat,
    found: bool,
    assertsHold: bool)

  function InitClient(servers: nat, kth: int): Client {
    Client(servers, kth, 0, 0, INT64_MAX, INT64_MIN, 0, 0, 0, 0, 0, 0, 0, 0, false, true)
  }

  function Merge(c: Client, sum: int, count: int, min: int, max: int): Client {
    c.(sum := c.sum + sum,
       totalCount := c.totalCount + count,
       min := if c.min > min then min else c.min,
       max := if c.max < max then max else c.max,
       nServerState := c.nServerState + 1)
  }

  function AllToldState(c: Client): bool {
    c.nServerState == c.servers
  }

  function StartSearch(c: Client): Client {
    c.(low := c.min, high := c.max, guess := FirstGuess(c.min, c.max), kth := ClampK(c.kth, c.totalCount))
  }

  function OnServerState(c: Client, sum: int, count: int, min: int, max: int): Client {
    var merged := Merge(c, sum, count, min, max);
    if AllToldState(merged) then StartSearch(merged) else merged
  }

  function AddAnswer(c: Client, nLess: int, nEqual: int): Client {
    c.(nLess := c.nLess + nLess, nEqual := c.nEqual + nEqual, nAnswered := c.nAnswered + 1)
  }

  function AllAnswered(c: Client): bool {
    c.nAnswered == c.servers
  }

  /** The end of a round: shrink the interval or stop, check the source's two assertions, and guess again. */
  function EndRound(c: Client): Client {
    var done := c.nLess < c.kth <= c.nLess + c.nEqual;
    var low := if c.nLess < c.kth && !done then c.guess + 1 else c.low;
    var high := if c.nLess < c.kth then c.high else c.guess - 1;
    var checked := c.(low := low, high := high, nIteration := c.nIteration + 1, found := done,
                      assertsHold := c.assertsHold && c.nIteration + 1 <= 64 && low <= high);
    if done then checked
    else checked.(nLess := 0, nEqual := 0, nAnswered := 0, guess := low + (high - low) / 2)
  }

  function OnAnswer(c: Client, nLess: int, nEqual: int): Client {
    var added := AddAnswer(c, nLess, nEqual);
    if AllAnswered(added) then EndRound(added) else added
  }

  class KthClient {
    const servers: nat
    var kth: int
    var sum: int
    var totalCount: int
    var min: int
    var max: int
    var nServerState: nat
    var low: int
    var high: int
    var guess: int
    var nLess: int
    var nEqual: int
    var nAnswered: nat
    var nIteration: nat
    var found: bool
    var assertsHold: bool

    ghost function State(): Client
      reads this
    {
      Client(servers, kth, sum, totalCount, min, max, nServerState, low, high, guess, nLess, nEqual,
             nAnswered, nIteration, found, assertsHold)
    }

    constructor (peers: nat, k: int)
      ensures State() == InitClient(peers, k)
    {
      servers, kth := peers, k;
      sum, totalCount, min, max, nServerState := 0, 0, INT64_MAX, INT64_MIN, 0;
      low, high, guess, nLess, nEqual, nAnswered, nIteration := 0, 0, 0, 0, 0, 0, 0;
      found, assertsHold := false, true;
    }

    /** `broadcast` tells that `guess` is sent as a query on every connection. */
    method ServerState(s: int, count: int, smin: int, smax: int) returns (broadcast: bool)
      modifies this
      ensures State() == OnServerState(old(State()), s, count, smin, smax)
      ensures broadcast <==> old(nServerState) + 1 == servers
      ensures broadcast ==> low == min && high == max
      ensures var n := old(totalCount) + count;
        kth == if broadcast && old(kth) <= 0 then (n + 1) / 2 else if broadcast && old(kth) > n then n else old(kth)
    {
      hide StartSearch;
      sum := sum + s;
      totalCount := totalCount + count;
      if min > smin {
        min := smin;
      }
      if max < smax {
        max := smax;
      }
      nServerState := nServerState + 1;
      assert State() == Merge(old(State()), s, count, smin, smax);
      broadcast := nServerState == servers;
      if broadcast {
        BeginSearch();
      }
    }

    method BeginSearch()
      modifies this
      ensures State() == StartSearch(old(State())) && nServerState == old(nServerState)
      ensures low == min == old(min) && high == max == old(max)
      ensures kth == if old(kth) <= 0 then (totalCount + 1) / 2 else if old(kth) > totalCount then totalCount
                     else old(kth)
      ensures totalCount == old(totalCount)
    {
      hide FirstGuess;
      low := min;
      high := max;
      guess := FirstGuess(low, high);
      if kth <= 0 {
        kth := (totalCount + 1) / 2;
      } else if kth > totalCount {
        kth := totalCount;
      }
    }

    method Answer(less: int, equal: int) returns (broadcast: bool, shutdown: bool)
      modifies this
      ensures State() == OnAnswer(old(State()), less, equal)
      ensures broadcast <==> AllAnswered(AddAnswer(old(State()), less, equal)) && !found
      ensures shutdown <==> AllAnswered(AddAnswer(old(State()), less, equal)) && found
      ensures broadcast || shutdown <==> old(nAnswered) + 1 == servers
    {
      hide EndRound;
      nLess := nLess + less;
      nEqual := nEqual + equal;
      nAnswered := nAnswered + 1;
      assert State() == AddAnswer(old(State()), less, equal);
      broadcast, shutdown := false, false;
      if nAnswered == servers {
        FinishRound();
        broadcast, shutdown := !found, found;
      }
    }

    method FinishRound()
      modifies this
      ensures State() == EndRound(old(State()))
    {
      hide State;
      Fields();
      var done := Narrow();
      CheckRound(done);
      if !done {
        NextGuess();
      }
    }

    lemma Fields()
      ensures var c := State();
        c.nLess == nLess && c.nEqual == nEqual && c.kth == kth && c.guess == guess && c.low == low && c.high == high
    {
    }

    /** The interval shrinks on one side of the guess, unless the element is found. */
    method Narrow() returns (done: bool)
      modifies this`low, this`high
      ensures done <==> nLess < kth <= nLess + nEqual
      ensures State() == old(State()).(low := if nLess < kth && !done then guess + 1 else old(low),
                                       high := if nLess < kth then old(high) else guess - 1)
    {
      done := false;
      if nLess < kth {
        if nLess + nEqual >= kth {
          done := true;
        } else {
          low := guess + 1;
        }
      } else {
        high := guess - 1;
      }
    }

    /** The iteration is counted, and the two assertions of the source are checked. */
    method CheckRound(done: bool)
      modifies this`nIteration, this`found, this`assertsHold
      ensures var c := old(State());
        State() == c.(nIteration := c.nIteration + 1, found := done,
                      assertsHold := c.assertsHold && c.nIteration + 1 <= 64 && c.low <= c.high)
    {
      nIteration := nIteration + 1;
      found, assertsHold := done, assertsHold && nIteration <= 64 && low <= high;
    }

    method NextGuess()
      modifies this`nLess, this`nEqual, this`nAnswered, this`guess
      ensures var c := old(State());
        State() == c.(nLess := 0, nEqual := 0, nAnswered := 0, guess := c.low + (c.high - c.low) / 2)
    {
      nLess, nEqual, nAnswered := 0, 0, 0;
      guess := low + (high - low) / 2;
    }
  }

  // ----- one round of the bisection -----

  function Pow2(n: nat): nat {
    if n == 0 then 1 else 2 * Pow2(n - 1)
  }

  lemma Times128(n: nat)
    ensures Pow2(n + 7) == 128 * Pow2(n)
  {
    assert Pow2(n + 2) == 4 * Pow2(n);
    assert Pow2(n + 4) == 4 * Pow2(n + 2);
    assert Pow2(n + 6) == 4 * Pow2(n + 4);
  }

  lemma NoDoubling()
    ensures Pow2(0) == 1
  {
  }

  lemma Pow2Of63()
    ensures Pow2(63) == INT64_MAX + 1
  {
    NoDoubling();
    hide Pow2;
    Times128(0);
    Times128(7);
    Times128(14);
    Times128(21);
    Times128(28);
    Times128(35);
    Times128(42);
    Times128(49);
    Times128(56);
  }

  /**
   What holds between rounds: the interval holds the k-th element, the guess is its middle, and it has been
   halved once per round.
   */
  ghost predicate Searching(all: seq<int>, c: Client) {
    && c.assertsHold && !c.found
    && CountLess(all, c.low) < c.kth <= CountLess(all, c.high + 1)
    && c.guess == c.low + (c.high - c.low) / 2
    && c.nIteration <= 63
    && c.high - c.low < Pow2(63 - c.nIteration)
  }

  /** The flag tells exactly whether an assertion of the source would have failed at the end of this round. */
  lemma FlagTells(c: Client)
    ensures var d := EndRound(c);
      d.assertsHold <==> c.assertsHold && c.nIteration < 64 && d.low <= d.high
    ensures EndRound(c).nIteration == c.nIteration + 1
  {
  }

  /** A complete round either announces the k-th element, or keeps the bracket in an interval half as wide. */
  lemma RoundKeeps(all: seq<int>, c: Client)
    requires Searching(all, c)
    requires c.nLess == CountLess(all, c.guess) && c.nEqual == CountEqual(all, c.guess)
    ensures var d := EndRound(c);
      && d.assertsHold
      && d.nIteration <= 64 && d.low <= d.guess <= d.high
      && (d.found ==> d.guess == c.guess && IsKth(all, c.kth, d.guess))
      && (!d.found ==> Searching(all, d) && c.low <= d.low && d.high <= c.high)
  {
    var d := EndRound(c);
    CountNext(all, c.guess);
    Bracket(all, c.kth, c.low, c.high);
    Bracket(all, c.kth, d.low, d.high);
    if !d.found {
      assert d.high - d.low + 1 <= (c.high - c.low + 1) / 2;
      assert c.nIteration < 63;
      assert Pow2(63 - c.nIteration) == 2 * Pow2(62 - c.nIteration);
    }
  }
}
