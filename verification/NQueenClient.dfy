/**
 The N-queens client: it splits the board by its first two rows, asks for half of the first row only,
 and adds up mirror-weighted answers that arrive in any order from any number of servers.
 */
module NQueenClient {
  import opened Board
  import opened Sums

  datatype Request = Request(nQueen: nat, cols: seq<nat>)
  datatype Response = Response(count: nat, cols: seq<nat>)

  // ----- mirror symmetry -----

  function Mirror(n: nat, q: seq<nat>): seq<nat>
    requires InRange(n, q)
  {
    seq(|q|, i requires 0 <= i < |q| => n - 1 - q[i])
  }

  lemma MirrorKeeps(n: nat, prefix: seq<nat>, q: seq<nat>)
    requires InRange(n, prefix) && q in Completions(n, prefix)
    ensures InRange(n, q) && Mirror(n, q) in Completions(n, Mirror(n, prefix))
    ensures Mirror(n, Mirror(n, q)) == q
  {
    InCompletions(n, prefix, q);
    var m := Mirror(n, q);
    forall i: nat, j: nat | i < j < |m|
      ensures !Attacks(m, i, j)
    {
      assert !Attacks(q, i, j);
    }
    assert Mirror(n, prefix) == m[..|prefix|];
    InCompletions(n, Mirror(n, prefix), m);
  }

  /** Mirrors of distinct placements are distinct, so one set of them is no larger than the other. */
  lemma {:induction false} MirrorInjects(n: nat, a: set<seq<nat>>, b: set<seq<nat>>)
    requires forall q :: q in a ==> InRange(n, q) && Mirror(n, q) in b && Mirror(n, Mirror(n, q)) == q
    ensures |a| <= |b|
    decreases a
  {
    if a != {} {
      var q :| q in a;
      forall p | p in a - {q}
        ensures Mirror(n, p) in b - {Mirror(n, q)}
      {
        assert Mirror(n, Mirror(n, p)) == p;
      }
      MirrorInjects(n, a - {q}, b - {Mirror(n, q)});
    }
  }

  lemma MirrorCount(n: nat, prefix: seq<nat>)
    requires InRange(n, prefix)
    ensures |Completions(n, prefix)| == |Completions(n, Mirror(n, prefix))|
  {
    var other := Mirror(n, prefix);
    assert Mirror(n, other) == prefix;
    forall q | q in Completions(n, prefix)
      ensures InRange(n, q) && Mirror(n, q) in Completions(n, other) && Mirror(n, Mirror(n, q)) == q
    {
      MirrorKeeps(n, prefix, q);
    }
    forall q | q in Completions(n, other)
      ensures InRange(n, q) && Mirror(n, q) in Completions(n, prefix) && Mirror(n, Mirror(n, q)) == q
    {
      MirrorKeeps(n, other, q);
    }
    MirrorInjects(n, Completions(n, prefix), Completions(n, other));
    MirrorInjects(n, Completions(n, other), Completions(n, prefix));
  }

  /** The last `k` columns of the first row hold as many placements as the first `k`. */
  lemma {:induction false} MirrorHalves(n: nat, k: nat)
    requires k <= n
    ensures CountBelow(n, [], n) == CountBelow(n, [], n - k) + CountBelow(n, [], k)
  {
    if k > 0 {
      MirrorHalves(n, k - 1);
      MirrorCount(n, [k - 1]);
      assert Mirror(n, [k - 1]) == [n - k];
      assert [] + [k - 1] == [k - 1] && [] + [n - k] == [n - k];
      assert CountBelow(n, [], n - k + 1) == CountBelow(n, [], n - k) + |Completions(n, [] + [n - k])|;
    }
  }

  // ----- the requests and what they are worth -----

  /** What the client adds for a response: twice its count, unless its first queen is in the middle column. */
  function Weighed(n: nat, cols: seq<nat>, count: nat): nat {
    if cols == [] then count
    else if n % 2 == 1 && cols[0] + 1 == (n + 1) / 2 then count
    else 2 * count
  }

  /** What a request adds to the answer once its server has counted it. */
  ghost function Worth(n: nat): Request -> int {
    (r: Request) => Weighed(n, r.cols, |Completions(r.nQueen, r.cols)|)
  }

  function RowRequests(n: nat, i: nat, j: nat): seq<Request> {
    if j == 0 then [] else RowRequests(n, i, j - 1) + [Request(n, [i, j - 1])]
  }

  function FirstRows(n: nat, i: nat): seq<Request> {
    if i == 0 then [] else FirstRows(n, i - 1) + RowRequests(n, i - 1, n)
  }

  function AllRequests(n: nat): seq<Request> {
    if n == 1 then [Request(n, [])] else FirstRows(n, (n + 1) / 2)
  }

  lemma {:induction false} RowWorth(n: nat, i: nat, j: nat)
    requires j <= n
    ensures SumOf(Worth(n), RowRequests(n, i, j)) == Weighed(n, [i], CountBelow(n, [i], j))
  {
    hide SumOf, Completions;
    if j == 0 {
      SumNone(Worth(n));
    } else {
      RowWorth(n, i, j - 1);
      SumAppend(Worth(n), RowRequests(n, i, j - 1), Request(n, [i, j - 1]));
      assert [i] + [j - 1] == [i, j - 1];
    }
  }

  /** A row of requests is worth its first queen's placements, once or twice. */
  lemma FullRowWorth(n: nat, i: nat)
    requires n >= 2 && i < (n + 1) / 2
    ensures SumOf(Worth(n), RowRequests(n, i, n)) ==
      if i < n / 2 then 2 * |Completions(n, [i])| else |Completions(n, [i])|
  {
    RowWorth(n, i, n);
    CompletionsSplit(n, [i]);
  }

  /** Before the middle column every first-row column counts for itself and for its mirror image. */
  lemma {:induction false} FirstRowsWorth(n: nat, i: nat)
    requires n >= 2 && i <= n / 2
    ensures SumOf(Worth(n), FirstRows(n, i)) == 2 * CountBelow(n, [], i)
  {
    hide SumOf;
    if i == 0 {
      SumNone(Worth(n));
    } else {
      FirstRowsWorth(n, i - 1);
      FirstRowsStep(n, i);
    }
  }

  lemma FirstRowsStep(n: nat, i: nat)
    requires n >= 2 && 0 < i <= (n + 1) / 2
    ensures SumOf(Worth(n), FirstRows(n, i))
      == SumOf(Worth(n), FirstRows(n, i - 1))
         + (if i - 1 < n / 2 then 2 * |Completions(n, [i - 1])| else |Completions(n, [i - 1])|)
    ensures CountBelow(n, [], i) == CountBelow(n, [], i - 1) + |Completions(n, [i - 1])|
  {
    hide SumOf;
    assert SumOf(Worth(n), FirstRows(n, i)) == SumOf(Worth(n), FirstRows(n, i - 1))
        + SumOf(Worth(n), RowRequests(n, i - 1, n)) by {
      SumConcat(Worth(n), FirstRows(n, i - 1), RowRequests(n, i - 1, n));
    }
    FullRowWorth(n, i - 1);
    assert [] + [i - 1] == [i - 1];
  }

  /** The initial requests are worth exactly the number of solutions of the whole board. */
  lemma RequestsCoverBoard(n: nat)
    requires n >= 1
    ensures SumOf(Worth(n), AllRequests(n)) == |Completions(n, [])|
  {
    hide SumOf;
    if n == 1 {
      SumOne(Worth(n), Request(n, []));
    } else {
      var h := n / 2;
      CompletionsSplit(n, []);
      FirstRowsWorth(n, h);
      MirrorHalves(n, h);
      if n % 2 == 1 {
        FirstRowsStep(n, h + 1);
      }
    }
  }

  lemma {:induction false} RowRequestsAre(n: nat, i: nat, j: nat)
    ensures |RowRequests(n, i, j)| == j
    ensures forall k :: 0 <= k < j ==> RowRequests(n, i, j)[k] == Request(n, [i, k])
  {
    if j > 0 {
      RowRequestsAre(n, i, j - 1);
    }
  }

  lemma {:induction false} FirstRowsAre(n: nat, i: nat, j: nat, k: nat)
    requires j < i && k < n
    ensures 0 <= j * n + k < |FirstRows(n, i)| == i * n
    ensures FirstRows(n, i)[j * n + k] == Request(n, [j, k])
    decreases i
  {
    RowRequestsAre(n, i - 1, n);
    FirstRowsLength(n, i);
    FirstRowsLength(n, i - 1);
    if j < i - 1 {
      FirstRowsAre(n, i - 1, j, k);
    } else {
      assert FirstRows(n, i)[(i - 1) * n + k] == RowRequests(n, i - 1, n)[k];
    }
  }

  lemma {:induction false} FirstRowsLength(n: nat, i: nat)
    ensures |FirstRows(n, i)| == i * n
  {
    if i > 0 {
      FirstRowsLength(n, i - 1);
      RowRequestsAre(n, i - 1, n);
      assert (i - 1) * n + n == i * n;
    }
  }

  /** One request for each column of the second row under each of the first half of the first row. */
  lemma AllRequestsAre(n: nat, i: nat, j: nat)
    ensures n == 1 ==> AllRequests(n) == [Request(1, [])]
    ensures n != 1 ==> |AllRequests(n)| == (n + 1) / 2 * n
    ensures n != 1 && i < (n + 1) / 2 && j < n ==>
      0 <= i * n + j < |AllRequests(n)| && AllRequests(n)[i * n + j] == Request(n, [i, j])
  {
    if n != 1 {
      FirstRowsLength(n, (n + 1) / 2);
      if i < (n + 1) / 2 && j < n {
        FirstRowsAre(n, (n + 1) / 2, i, j);
      }
    }
  }

  // ----- the client -----

  datatype Client = Client(nQueen: nat, requests: seq<Request>, totalRequests: nat, totalResponse: nat, answers: nat)

  function InitClient(n: nat): Client {
    Client(n, AllRequests(n), |AllRequests(n)|, 0, 0)
  }

  function Last<T>(s: seq<T>): T
    requires s != []
  {
    s[|s| - 1]
  }

  /** What `onTellCores` sends: up to `nCores` requests, taken from the back. */
  function Taken(requests: seq<Request>, nCores: nat): seq<Request> {
    if nCores == 0 || requests == [] then []
    else [Last(requests)] + Taken(requests[..|requests| - 1], nCores - 1)
  }

  function Rest(requests: seq<Request>, nCores: nat): seq<Request> {
    if nCores == 0 || requests == [] then requests
    else Rest(requests[..|requests| - 1], nCores - 1)
  }

  /** Requests leave from the back, the last one first, and the others stay as they are. */
  lemma {:induction false} TakenFromBack(requests: seq<Request>, nCores: nat)
    ensures var k := if nCores < |requests| then nCores else |requests|;
      && |Taken(requests, nCores)| == k && Rest(requests, nCores) == requests[..|requests| - k]
      && forall i :: 0 <= i < k ==> Taken(requests, nCores)[i] == requests[|requests| - 1 - i]
  {
    if nCores > 0 && requests != [] {
      TakenFromBack(requests[..|requests| - 1], nCores - 1);
    }
  }

  function OnTellCores(c: Client, nCores: nat): Client {
    c.(requests := Rest(c.requests, nCores))
  }

  function OnMessage(c: Client, rsps: Response): Client {
    c.(answers := c.answers + Weighed(c.nQueen, rsps.cols, rsps.count),
       totalResponse := c.totalResponse + 1,
       requests := Rest(c.requests, 1))
  }

  class NQueenClient {
    const nQueen: nat
    var requests: seq<Request>
    var totalRequests: nat
    var totalResponse: nat
    var answers: nat

    ghost function State(): Client
      reads this
    {
      Client(nQueen, requests, totalRequests, totalResponse, answers)
    }

    constructor (n: nat)
      requires n >= 1
      ensures State() == InitClient(n)
    {
      nQueen := n;
      requests, totalRequests, totalResponse, answers := [], 0, 0, 0;
      new;
      InitRequests();
    }

    method InitRequests()
      requires nQueen >= 1 && requests == [] && totalRequests == 0
      modifies this`requests, this`totalRequests
      ensures requests == AllRequests(nQueen) && totalRequests == |requests|
    {
      if nQueen == 1 {
        requests := requests + [Request(nQueen, [])];
        totalRequests := 1;
      } else {
        for i := 0 to (nQueen + 1) / 2
          invariant requests == FirstRows(nQueen, i) && totalRequests == |requests|
        {
          for j := 0 to nQueen
            invariant requests == FirstRows(nQueen, i) + RowRequests(nQueen, i, j)
            invariant totalRequests == |requests|
          {
            requests := requests + [Request(nQueen, [i, j])];
            totalRequests := totalRequests + 1;
          }
        }
      }
    }

    method SendOneRequest() returns (sent: Request)
      requires requests != []
      modifies this`requests
      ensures sent == Last(old(requests)) && requests == old(requests)[..|old(requests)| - 1]
    {
      sent := requests[|requests| - 1];
      requests := requests[..|requests| - 1];
    }

    method TellCores(nCores: nat) returns (sent: seq<Request>)
      modifies this`requests
      ensures State() == OnTellCores(old(State()), nCores)
      ensures sent == Taken(old(requests), nCores)
    {
      sent := [];
      var i := 0;
      while i < nCores && requests != []
        invariant i <= nCores
        invariant Rest(requests, nCores - i) == Rest(old(requests), nCores)
        invariant sent + Taken(requests, nCores - i) == Taken(old(requests), nCores)
      {
        var r := SendOneRequest();
        sent := sent + [r];
        i := i + 1;
      }
    }

    method Message(rsps: Response) returns (sent: seq<Request>, shutdown: bool)
      modifies this
      ensures State() == OnMessage(old(State()), rsps)
      ensures sent == Taken(old(requests), 1)
      ensures shutdown <==> totalResponse == totalRequests
    {
      assert Rest(requests, 1) == if requests == [] then [] else requests[..|requests| - 1];
      if rsps.cols != [] {
        if nQueen % 2 == 1 && rsps.cols[0] + 1 == (nQueen + 1) / 2 {
          answers := answers + rsps.count;
        } else {
          answers := answers + 2 * rsps.count;
        }
      } else {
        answers := answers + rsps.count;
      }
      totalResponse := totalResponse + 1;
      shutdown := totalResponse == totalRequests;
      sent := [];
      if requests != [] {
        var r := SendOneRequest();
        sent := [r];
      }
    }
  }
}
