/**
 The N-queens client and its servers as one system. A server tells its core count once, answers the
 requests it holds in any order, and the network delivers the answers in any order.
 */
module NQueenSystem {
  import opened Board
  import opened Sums
  import opened NQueenClient

  datatype Item =
    | Asked(conn: nat, rqst: Request)
    | Answered(conn: nat, rsps: Response)

  /** `cores` gives the core count of the server behind each connection; `answered` and `shutdowns` are history. */
  datatype Net = Net(
    client: Client,
    cores: map<nat, nat>,
    told: set<nat>,
    flight: seq<Item>,
    answered: seq<Request>,
    shutdowns: nat)

  datatype Step = Tell(conn: nat) | Serve(i: nat) | Deliver(i: nat)

  ghost function Init(n: nat, cores: map<nat, nat>): Net {
    Net(InitClient(n), cores, {}, [], [], 0)
  }

  predicate Enabled(s: Net, step: Step) {
    match step
    case Tell(c) => c in s.cores && c !in s.told
    case Serve(i) => i < |s.flight| && s.flight[i].Asked?
    case Deliver(i) => i < |s.flight| && s.flight[i].Answered?
  }

  function Wrap(conn: nat, sent: seq<Request>): seq<Item> {
    seq(|sent|, i requires 0 <= i < |sent| => Asked(conn, sent[i]))
  }

  /** What `NQueenServer.BackTrack.Solve` answers, with the columns of the request echoed. */
  ghost function ServerAnswer(r: Request): Response {
    Response(|Completions(r.nQueen, r.cols)|, r.cols)
  }

  ghost function Next(s: Net, step: Step): Net
    requires Enabled(s, step)
  {
    match step
    case Tell(c) =>
      s.(client := OnTellCores(s.client, s.cores[c]),
         told := s.told + {c},
         flight := s.flight + Wrap(c, Taken(s.client.requests, s.cores[c])))
    case Serve(i) =>
      s.(flight := s.flight[i := Answered(s.flight[i].conn, ServerAnswer(s.flight[i].rqst))])
    case Deliver(i) =>
      var rsps := s.flight[i].rsps;
      var client := OnMessage(s.client, rsps);
      s.(client := client,
         flight := Without(s.flight, i) + Wrap(s.flight[i].conn, Taken(s.client.requests, 1)),
         answered := s.answered + [Request(s.client.nQueen, rsps.cols)],
         shutdowns := s.shutdowns + if client.totalResponse == client.totalRequests then 1 else 0)
  }

  ghost predicate CanRun(s: Net, steps: seq<Step>)
    decreases |steps|
  {
    steps == [] || (Enabled(s, steps[0]) && CanRun(Next(s, steps[0]), steps[1..]))
  }

  ghost function After(s: Net, steps: seq<Step>): Net
    requires CanRun(s, steps)
    decreases |steps|
  {
    if steps == [] then s else After(Next(s, steps[0]), steps[1..])
  }

  // ----- what every step keeps -----

  function Origin(n: nat, item: Item): Request {
    match item
    case Asked(_, r) => r
    case Answered(_, rsps) => Request(n, rsps.cols)
  }

  function Origins(n: nat, flight: seq<Item>): seq<Request> {
    seq(|flight|, i requires 0 <= i < |flight| => Origin(n, flight[i]))
  }

  function OnConn(c: nat): Item -> int {
    (item: Item) => if item.conn == c then 1 else 0
  }

  /** How many requests connection `c` has been sent and has not answered. */
  ghost function Outstanding(s: Net, c: nat): int {
    SumOf(OnConn(c), s.flight)
  }

  /** Unsent, in flight and answered requests together are the initial ones. */
  ghost predicate Conserved(n: nat, s: Net) {
    multiset(s.client.requests) + multiset(Origins(n, s.flight)) + multiset(s.answered) == multiset(AllRequests(n))
  }

  ghost predicate Honest(n: nat, item: Item) {
    match item
    case Asked(_, r) => r.nQueen == n
    case Answered(_, rsps) => rsps.count == |Completions(n, rsps.cols)|
  }

  ghost predicate AllHonest(n: nat, s: Net) {
    && (forall r :: r in s.client.requests ==> r.nQueen == n)
    && (forall item :: item in s.flight ==> Honest(n, item) && item.conn in s.told)
  }

  /** A connection that told its cores has that many requests outstanding, or no request is left. */
  ghost predicate WorkConserving(s: Net) {
    && s.told <= s.cores.Keys
    && forall c :: c in s.told && s.client.requests != [] ==> Outstanding(s, c) == s.cores[c]
  }

  ghost predicate Counted(n: nat, s: Net) {
    && s.client.nQueen == n
    && s.client.totalRequests == |AllRequests(n)|
    && s.client.totalResponse == |s.answered|
    && s.client.answers == SumOf(Worth(n), s.answered)
    && s.shutdowns == if s.client.totalResponse == s.client.totalRequests then 1 else 0
  }

  ghost predicate Inv(n: nat, s: Net) {
    Counted(n, s) && Conserved(n, s) && AllHonest(n, s) && WorkConserving(s)
  }

  lemma TakeOne(requests: seq<Request>, k: nat)
    ensures k == 0 || requests == [] ==> Taken(requests, k) == [] && Rest(requests, k) == requests
    ensures k > 0 && requests != [] ==>
      var init := requests[..|requests| - 1];
      && requests == init + [Last(requests)]
      && Taken(requests, k) == [Last(requests)] + Taken(init, k - 1)
      && Rest(requests, k) == Rest(init, k - 1)
  {
  }

  lemma {:induction false} TakenRest(requests: seq<Request>, k: nat)
    ensures multiset(Taken(requests, k)) + multiset(Rest(requests, k)) == multiset(requests)
  {
    hide Taken, Rest, Last;
    TakeOne(requests, k);
    if k > 0 && requests != [] {
      var init, last := requests[..|requests| - 1], Last(requests);
      TakenRest(init, k - 1);
      LastAside(init, last, Taken(init, k - 1));
    }
  }

  lemma LastAside(init: seq<Request>, last: Request, taken: seq<Request>)
    ensures multiset(init + [last]) == multiset(init) + multiset{last}
    ensures multiset([last] + taken) == multiset{last} + multiset(taken)
  {
  }

  /** What is sent and what stays were both among the requests. */
  lemma TakenAndRestAre(requests: seq<Request>, k: nat)
    ensures forall r :: r in Taken(requests, k) || r in Rest(requests, k) ==> r in requests
  {
    TakenRest(requests, k);
    forall r | r in Taken(requests, k) || r in Rest(requests, k) ensures r in requests {
      assert multiset(Taken(requests, k))[r] + multiset(Rest(requests, k))[r] > 0;
      assert r in multiset(requests);
    }
  }

  lemma {:induction false} TakenSizes(requests: seq<Request>, k: nat)
    ensures Rest(requests, k) != [] ==> |Taken(requests, k)| == k
    ensures |Taken(requests, k)| + |Rest(requests, k)| == |requests|
  {
    if k > 0 && requests != [] {
      TakenSizes(requests[..|requests| - 1], k - 1);
    }
  }

  lemma {:induction false} WrapConn(c: nat, d: nat, sent: seq<Request>)
    ensures SumOf(OnConn(d), Wrap(c, sent)) == if c == d then |sent| else 0
  {
    if sent != [] {
      var k := |sent| - 1;
      WrapConn(c, d, sent[..k]);
      assert Wrap(c, sent)[..k] == Wrap(c, sent[..k]);
    }
  }

  lemma OutstandingAfter(flight: seq<Item>, c: nat, d: nat, sent: seq<Request>)
    ensures SumOf(OnConn(d), flight + Wrap(c, sent)) == SumOf(OnConn(d), flight) + if c == d then |sent| else 0
  {
    SumConcat(OnConn(d), flight, Wrap(c, sent));
    WrapConn(c, d, sent);
  }

  lemma OriginsConcat(n: nat, flight: seq<Item>, c: nat, sent: seq<Request>)
    ensures Origins(n, flight + Wrap(c, sent)) == Origins(n, flight) + sent
  {
  }

  lemma OriginsWithout(n: nat, flight: seq<Item>, i: nat)
    requires i < |flight|
    ensures Origins(n, Without(flight, i)) == Without(Origins(n, flight), i)
  {
  }

  lemma Sizes(n: nat, s: Net)
    requires Conserved(n, s)
    ensures |s.client.requests| + |s.flight| + |s.answered| == |AllRequests(n)|
  {
    assert |multiset(s.client.requests)| + |multiset(Origins(n, s.flight))| + |multiset(s.answered)|
        == |multiset(AllRequests(n))|;
  }

  lemma {:induction false} RequestsOfBoard(n: nat)
    requires n >= 1
    ensures AllRequests(n) != [] && forall r :: r in AllRequests(n) ==> r.nQueen == n
  {
    if n >= 2 {
      FirstRowsOfBoard(n, (n + 1) / 2);
    }
  }

  lemma {:induction false} FirstRowsOfBoard(n: nat, i: nat)
    requires n >= 1
    ensures forall r :: r in FirstRows(n, i) ==> r.nQueen == n
    ensures i > 0 ==> FirstRows(n, i) != []
  {
    hide RowRequests;
    if i > 0 {
      FirstRowsOfBoard(n, i - 1);
      RowOfBoard(n, i - 1, n);
    }
  }

  lemma {:induction false} RowOfBoard(n: nat, i: nat, j: nat)
    ensures |RowRequests(n, i, j)| == j && forall r :: r in RowRequests(n, i, j) ==> r.nQueen == n
  {
    if j > 0 {
      RowOfBoard(n, i, j - 1);
    }
  }

  lemma InitKeeps(n: nat, cores: map<nat, nat>)
    requires n >= 1
    ensures Inv(n, Init(n, cores))
  {
    RequestsOfBoard(n);
    assert Origins(n, []) == [];
  }

  lemma TellKeeps(n: nat, s: Net, c: nat)
    requires Inv(n, s) && Enabled(s, Tell(c))
    ensures Inv(n, Next(s, Tell(c)))
  {
    hide SumOf, Taken, Rest, AllRequests, AllHonest, WorkConserving, Conserved, Wrap;
    TellConserves(n, s, c);
    SendingIsHonest(n, s, s.flight, c, s.cores[c], Next(s, Tell(c)));
    TellWorks(n, s, c);
  }

  lemma TellConserves(n: nat, s: Net, c: nat)
    requires Inv(n, s) && Enabled(s, Tell(c))
    ensures Conserved(n, Next(s, Tell(c)))
  {
    hide SumOf, Taken, Rest, AllRequests, AllHonest, WorkConserving;
    TakenRest(s.client.requests, s.cores[c]);
    OriginsConcat(n, s.flight, c, Taken(s.client.requests, s.cores[c]));
  }

  /** Requests moved from the client to a connection that has told its cores. */
  lemma SendingIsHonest(n: nat, s: Net, flight: seq<Item>, c: nat, k: nat, t: Net)
    requires AllHonest(n, s) && (forall item :: item in flight ==> item in s.flight)
    requires c in t.told && s.told <= t.told
    requires t.flight == flight + Wrap(c, Taken(s.client.requests, k))
    requires t.client.requests == Rest(s.client.requests, k)
    ensures AllHonest(n, t)
  {
    hide Taken, Rest;
    var sent := Taken(s.client.requests, k);
    TakenAndRestAre(s.client.requests, k);
    forall item | item in t.flight ensures Honest(n, item) && item.conn in t.told {
      if item !in flight {
        assert item in Wrap(c, sent);
        var m :| 0 <= m < |sent| && item == Wrap(c, sent)[m];
        assert sent[m] in sent;
      }
    }
  }

  lemma TellWorks(n: nat, s: Net, c: nat)
    requires Inv(n, s) && Enabled(s, Tell(c))
    ensures WorkConserving(Next(s, Tell(c)))
  {
    hide SumOf, Taken, Rest, AllRequests;
    var sent := Taken(s.client.requests, s.cores[c]);
    var t := Next(s, Tell(c));
    TakenRest(s.client.requests, s.cores[c]);
    TakenSizes(s.client.requests, s.cores[c]);
    NoneOn(s.flight, c);
    forall d | d in t.told && t.client.requests != []
      ensures Outstanding(t, d) == t.cores[d]
    {
      OutstandingAfter(s.flight, c, d, sent);
    }
  }

  lemma {:induction false} NoneOn(flight: seq<Item>, c: nat)
    requires forall item :: item in flight ==> item.conn != c
    ensures SumOf(OnConn(c), flight) == 0
  {
    if flight != [] {
      NoneOn(flight[..|flight| - 1], c);
    }
  }

  lemma ServeKeeps(n: nat, s: Net, i: nat)
    requires Inv(n, s) && Enabled(s, Serve(i))
    ensures Inv(n, Next(s, Serve(i)))
  {
    hide SumOf, AllRequests;
    var t := Next(s, Serve(i));
    assert s.flight[i] in s.flight;
    assert Origins(n, t.flight) == Origins(n, s.flight);
    forall d | d in t.told && t.client.requests != []
      ensures Outstanding(t, d) == t.cores[d]
    {
      SumUpdate(OnConn(d), s.flight, i, t.flight[i]);
    }
  }

  lemma DeliverKeeps(n: nat, s: Net, i: nat)
    requires Inv(n, s) && Enabled(s, Deliver(i))
    ensures Inv(n, Next(s, Deliver(i)))
  {
    hide SumOf, Taken, Rest, AllRequests, WorkConserving, Conserved, Wrap;
    assert s.flight[i] in s.flight;
    SumAppend(Worth(n), s.answered, Request(n, s.flight[i].rsps.cols));
    Sizes(n, s);
    DeliverConserves(n, s, i);
    SendingIsHonest(n, s, Without(s.flight, i), s.flight[i].conn, 1, Next(s, Deliver(i)));
    DeliverWorks(n, s, i);
  }

  lemma DeliverWorks(n: nat, s: Net, i: nat)
    requires Inv(n, s) && Enabled(s, Deliver(i))
    ensures WorkConserving(Next(s, Deliver(i)))
  {
    hide SumOf, Taken, Rest, AllRequests;
    var item, sent := s.flight[i], Taken(s.client.requests, 1);
    var t := Next(s, Deliver(i));
    TakenRest(s.client.requests, 1);
    TakenSizes(s.client.requests, 1);
    forall d | d in t.told && t.client.requests != []
      ensures Outstanding(t, d) == t.cores[d]
    {
      SumWithout(OnConn(d), s.flight, i);
      OutstandingAfter(Without(s.flight, i), item.conn, d, sent);
    }
  }

  lemma DeliverConserves(n: nat, s: Net, i: nat)
    requires Inv(n, s) && Enabled(s, Deliver(i))
    ensures Conserved(n, Next(s, Deliver(i)))
  {
    hide Taken, Rest, AllRequests, SumOf;
    var origins := Origins(n, s.flight);
    SplitAt(origins, i);
    OriginsWithout(n, s.flight, i);
    OriginsConcat(n, Without(s.flight, i), s.flight[i].conn, Taken(s.client.requests, 1));
    TakenRest(s.client.requests, 1);
  }

  lemma StepKeeps(n: nat, s: Net, step: Step)
    requires Inv(n, s) && Enabled(s, step)
    ensures Inv(n, Next(s, step))
  {
    match step
    case Tell(c) => TellKeeps(n, s, c);
    case Serve(i) => ServeKeeps(n, s, i);
    case Deliver(i) => DeliverKeeps(n, s, i);
  }

  lemma {:induction false} RunKeeps(n: nat, s: Net, steps: seq<Step>)
    requires Inv(n, s) && CanRun(s, steps)
    ensures Inv(n, After(s, steps))
    decreases |steps|
  {
    if steps != [] {
      StepKeeps(n, s, steps[0]);
      RunKeeps(n, Next(s, steps[0]), steps[1..]);
    }
  }

  // ----- the promises -----

  /** However the answers arrive, the announced sum is the number of solutions of the whole board. */
  lemma AnnouncedAnswerIsExact(n: nat, cores: map<nat, nat>, steps: seq<Step>)
    requires n >= 1 && CanRun(Init(n, cores), steps)
    ensures var s := After(Init(n, cores), steps);
      s.client.totalResponse == s.client.totalRequests ==> s.client.answers == |Completions(n, [])|
  {
    var s := After(Init(n, cores), steps);
    InitKeeps(n, cores);
    RunKeeps(n, Init(n, cores), steps);
    Sizes(n, s);
    if s.client.totalResponse == s.client.totalRequests {
      assert Origins(n, s.flight) == [];
      SumPermutation(Worth(n), s.answered, AllRequests(n));
      RequestsCoverBoard(n);
    }
  }

  /** No request is lost or repeated, and a server that told its cores is kept busy while any request is unsent. */
  lemma RequestsConserved(n: nat, cores: map<nat, nat>, steps: seq<Step>)
    requires n >= 1 && CanRun(Init(n, cores), steps)
    ensures var s := After(Init(n, cores), steps);
      && Conserved(n, s)
      && (forall c :: c in s.told && s.client.requests != [] ==> c in cores && Outstanding(s, c) == cores[c])
  {
    InitKeeps(n, cores);
    RunKeeps(n, Init(n, cores), steps);
    SameCores(Init(n, cores), steps);
  }

  lemma {:induction false} SameCores(s: Net, steps: seq<Step>)
    requires CanRun(s, steps)
    ensures After(s, steps).cores == s.cores
    decreases |steps|
  {
    if steps != [] {
      SameCores(Next(s, steps[0]), steps[1..]);
    }
  }

  /** The answer is announced at most once, and afterwards nothing is in flight and nothing is ever sent. */
  lemma NothingAfterShutdown(n: nat, cores: map<nat, nat>, steps: seq<Step>, step: Step)
    requires n >= 1 && CanRun(Init(n, cores), steps)
    requires After(Init(n, cores), steps).shutdowns > 0
    requires Enabled(After(Init(n, cores), steps), step)
    ensures var s := After(Init(n, cores), steps);
      s.shutdowns == 1 && s.flight == [] && Next(s, step).flight == [] && Next(s, step).shutdowns == 1
  {
    var s := After(Init(n, cores), steps);
    InitKeeps(n, cores);
    RunKeeps(n, Init(n, cores), steps);
    Sizes(n, s);
    assert s.client.requests == [];
  }

  function Cost(): Item -> int {
    (item: Item) => if item.Asked? then 2 else 1
  }

  /** What is still to be done: three steps for an unsent request, two for a sent one, one for an answer. */
  ghost function Todo(s: Net): int {
    3 * |s.client.requests| + SumOf(Cost(), s.flight) + |s.cores.Keys - s.told|
  }

  lemma {:induction false} WrapCost(c: nat, sent: seq<Request>)
    ensures SumOf(Cost(), Wrap(c, sent)) == 2 * |sent|
  {
    if sent != [] {
      var k := |sent| - 1;
      WrapCost(c, sent[..k]);
      assert Wrap(c, sent)[..k] == Wrap(c, sent[..k]);
    }
  }

  lemma TellMakesProgress(s: Net, c: nat)
    requires Enabled(s, Tell(c))
    ensures Todo(Next(s, Tell(c))) < Todo(s)
  {
    hide SumOf, Taken, Rest;
    var t := Next(s, Tell(c));
    var sent := Taken(s.client.requests, s.cores[c]);
    TakenSizes(s.client.requests, s.cores[c]);
    SumConcat(Cost(), s.flight, Wrap(c, sent));
    WrapCost(c, sent);
    assert s.cores.Keys - s.told == (t.cores.Keys - t.told) + {c};
  }

  lemma StepMakesProgress(s: Net, step: Step)
    requires Enabled(s, step)
    ensures 0 <= Todo(Next(s, step)) < Todo(s)
  {
    hide SumOf, Taken, Rest;
    var t := Next(s, step);
    SumNonNegative(Cost(), t.flight);
    match step {
      case Tell(c) =>
        TellMakesProgress(s, c);
      case Serve(i) =>
        SumUpdate(Cost(), s.flight, i, t.flight[i]);
      case Deliver(i) =>
        var sent := Taken(s.client.requests, 1);
        TakenSizes(s.client.requests, 1);
        SumWithout(Cost(), s.flight, i);
        SumConcat(Cost(), Without(s.flight, i), Wrap(s.flight[i].conn, sent));
        WrapCost(s.flight[i].conn, sent);
    }
  }

  /** Every run ends, within a number of steps fixed at the start. */
  lemma {:induction false} RunEnds(s: Net, steps: seq<Step>)
    requires CanRun(s, steps)
    ensures |steps| + Todo(After(s, steps)) <= Todo(s)
    decreases |steps|
  {
    if steps != [] {
      StepMakesProgress(s, steps[0]);
      RunEnds(Next(s, steps[0]), steps[1..]);
    }
  }

  /** From the start: three steps for each request, and one for each server. */
  lemma RunsAreShort(n: nat, cores: map<nat, nat>, steps: seq<Step>)
    requires CanRun(Init(n, cores), steps)
    ensures |steps| <= 3 * |AllRequests(n)| + |cores|
  {
    hide AllRequests;
    var s := After(Init(n, cores), steps);
    RunEnds(Init(n, cores), steps);
    SumNonNegative(Cost(), s.flight);
    SumNone(Cost());
    assert cores.Keys - {} == cores.Keys && |cores| == |cores.Keys|;
  }

  lemma StuckMeansDone(n: nat, s: Net, c: nat)
    requires Inv(n, s) && c in s.cores && s.cores[c] > 0
    requires forall step :: !Enabled(s, step)
    ensures s.client.totalResponse == s.client.totalRequests
  {
    hide SumOf, AllRequests;
    assert !Enabled(s, Tell(c));
    assert !Enabled(s, Serve(0)) && !Enabled(s, Deliver(0));
    assert s.flight == [];
    SumNone(OnConn(c));
    assert s.client.requests == [];
    Sizes(n, s);
  }

  /** A run that can go no further has announced the exact answer, if some server has a core. */
  lemma StuckMeansAnnounced(n: nat, cores: map<nat, nat>, steps: seq<Step>, c: nat)
    requires n >= 1 && CanRun(Init(n, cores), steps)
    requires c in cores && cores[c] > 0
    requires forall step :: !Enabled(After(Init(n, cores), steps), step)
    ensures var s := After(Init(n, cores), steps); s.shutdowns == 1 && s.client.answers == |Completions(n, [])|
  {
    hide SumOf, AllRequests;
    InitKeeps(n, cores);
    RunKeeps(n, Init(n, cores), steps);
    SameCores(Init(n, cores), steps);
    StuckMeansDone(n, After(Init(n, cores), steps), c);
    AnnouncedAnswerIsExact(n, cores, steps);
  }
}
