/**
 The N-queens client and its servers over byte streams: requests and answers are printed, travel as bytes that
 arrive in chunks of any size, and are parsed from the receiver's buffer. The runs are those of `NQueenSystem`.
 */
module NQueenWire {
  import opened Common
  import opened Board
  import opened Sums
  import opened Framing
  import opened NQueenClient
  import opened NQueenSystem
  import NQueenServer
  import C = NQueenCodec

  // ----- bytes -----

  /** One connection: what each side has buffered, the bytes on their way to it, and the requests the workers hold. */
  datatype Pipe = Pipe(
    connected: bool,
    atServer: string,
    toServer: string,
    working: seq<Request>,
    atClient: string,
    toClient: string)

  /** `failed` tells that a line was malformed, or of a kind its receiver does not expect. */
  datatype Wire = Wire(client: Client, cores: map<nat, nat>, pipes: map<nat, Pipe>, shutdowns: nat, failed: bool)

  /** `n` bytes arrive at a server or at the client, or a worker finishes its `j`-th request. */
  datatype WireStep =
    | Open(c: nat)
    | ServerGets(c: nat, n: nat)
    | Work(c: nat, j: nat)
    | ClientGets(c: nat, n: nat)

  function WireInit(n: nat, cores: map<nat, nat>): Wire {
    Wire(InitClient(n), cores, map c | c in cores :: Pipe(false, "", "", [], "", ""), 0, false)
  }

  function Printed(msgs: seq<C.Message>): string {
    Stream(C.Show, msgs)
  }

  function RequestLine(r: Request): C.Message {
    C.Request(r.nQueen, r.cols)
  }

  function RequestLines(rs: seq<Request>): seq<C.Message> {
    seq(|rs|, i requires 0 <= i < |rs| => RequestLine(rs[i]))
  }

  function ResponseLine(r: Response): C.Message {
    C.Response(r.count, r.cols)
  }

  /** The requests among parsed messages. */
  function Requests(msgs: seq<C.Message>): seq<Request> {
    if msgs == [] then []
    else (match msgs[0]
          case Request(n, cols) => [Request(n, cols)]
          case _ => []) + Requests(msgs[1..])
  }

  function SendRequests(w: Wire, c: nat, sent: seq<Request>): map<nat, Pipe>
    requires c in w.pipes
  {
    w.pipes[c := w.pipes[c].(toServer := w.pipes[c].toServer + Printed(RequestLines(sent)))]
  }

  /** The client's callbacks on one parsed message. */
  function Take(w: Wire, c: nat, msg: C.Message): (v: Wire)
    requires c in w.pipes
    ensures v.pipes.Keys == w.pipes.Keys
  {
    match msg
    case NCores(k) =>
      w.(client := OnTellCores(w.client, k), pipes := SendRequests(w, c, Taken(w.client.requests, k)))
    case Response(count, cols) =>
      if count < 0 then w.(failed := true)
      else
        var client := OnMessage(w.client, Response(count, cols));
        w.(client := client, pipes := SendRequests(w, c, Taken(w.client.requests, 1)),
           shutdowns := w.shutdowns + if client.totalResponse == client.totalRequests then 1 else 0)
    case Request(_, _) => w.(failed := true)
  }

  function TakeAll(w: Wire, c: nat, msgs: seq<C.Message>): Wire
    requires c in w.pipes
    decreases |msgs|
  {
    if msgs == [] then w else TakeAll(Take(w, c, msgs[0]), c, msgs[1..])
  }

  predicate WireEnabled(w: Wire, step: WireStep) {
    && w.pipes.Keys == w.cores.Keys && step.c in w.pipes
    && match step
       case Open(c) => !w.pipes[c].connected
       case ServerGets(c, n) => 0 < n <= |w.pipes[c].toServer|
       case Work(c, j) => j < |w.pipes[c].working|
       case ClientGets(c, n) => 0 < n <= |w.pipes[c].toClient|
  }

  ghost function WireNext(w: Wire, step: WireStep): Wire
    requires WireEnabled(w, step)
  {
    var p := w.pipes[step.c];
    match step
    case Open(c) =>
      w.(pipes := w.pipes[c := p.(connected := true, toClient := p.toClient + Printed([C.NCores(w.cores[c])]))])
    case ServerGets(c, n) =>
      var d := Drain(C.ParseLine, p.atServer + p.toServer[..n]);
      w.(pipes := w.pipes[c := p.(atServer := d.rest, toServer := p.toServer[n..],
                                  working := p.working + Requests(d.msgs))],
         failed := w.failed || !d.ok || exists m :: m in d.msgs && !m.Request?)
    case Work(c, j) =>
      var line := ResponseLine(ServerAnswer(p.working[j]));
      w.(pipes := w.pipes[c := p.(working := Without(p.working, j), toClient := p.toClient + Printed([line]))])
    case ClientGets(c, n) =>
      var d := Drain(C.ParseLine, p.atClient + p.toClient[..n]);
      var q := p.(atClient := d.rest, toClient := p.toClient[n..]);
      TakeAll(w.(pipes := w.pipes[c := q], failed := w.failed || !d.ok), c, d.msgs)
  }

  ghost predicate WireCanRun(w: Wire, steps: seq<WireStep>)
    decreases |steps|
  {
    steps == [] || (WireEnabled(w, steps[0]) && WireCanRun(WireNext(w, steps[0]), steps[1..]))
  }

  ghost function WireAfter(w: Wire, steps: seq<WireStep>): Wire
    requires WireCanRun(w, steps)
    decreases |steps|
  {
    if steps == [] then w else WireAfter(WireNext(w, steps[0]), steps[1..])
  }

  // ----- bytes stand for messages -----

  /** What the bytes of one connection carry: requests to the server, and lines to the client. */
  datatype Load = Load(asked: seq<Request>, lines: seq<C.Message>)

  ghost predicate GoodRequest(n: nat, r: Request) {
    r.nQueen == n && forall x :: x in r.cols ==> x < n
  }

  ghost predicate GoodLine(m: C.Message) {
    C.WellFormed(m) && (m.NCores? || (m.Response? && m.count >= 0))
  }

  /** The requests in flight on connection `c` are those of the bag, and they are good ones. */
  ghost predicate AskedInFlight(n: nat, s: Net, c: nat, bag: multiset<Request>) {
    && (forall r :: r in bag ==> GoodRequest(n, r))
    && (forall r :: multiset(s.flight)[Asked(c, r)] == bag[r])
  }

  /** The lines to the client are the answers in flight on connection `c`, or the core count, which is told once. */
  ghost predicate LinesInFlight(s: Net, c: nat, connected: bool, bag: multiset<C.Message>)
    requires c in s.cores
  {
    && (forall m :: m in bag ==> GoodLine(m))
    && (forall r :: multiset(s.flight)[Answered(c, r)] == bag[ResponseLine(r)])
    && (if c in s.told then connected && forall m :: m in bag ==> !m.NCores?
        else bag == if connected then multiset{C.NCores(s.cores[c])} else multiset{})
  }

  /** The bytes of connection `c` carry its load; the load and the parsed lines `pending` are what is in flight. */
  ghost predicate PipeMatches(n: nat, s: Net, c: nat, p: Pipe, load: Load, pending: seq<C.Message>)
    requires c in s.cores
  {
    && Carries(C.Show, RequestLines(load.asked), p.atServer, p.toServer)
    && Carries(C.Show, load.lines, p.atClient, p.toClient)
    && AskedInFlight(n, s, c, multiset(load.asked) + multiset(p.working))
    && LinesInFlight(s, c, p.connected, multiset(pending) + multiset(load.lines))
  }

  /** `pending` lines of connection `at` have been parsed and not yet handed to the client. */
  ghost predicate Matches(n: nat, w: Wire, s: Net, loads: map<nat, Load>, at: nat, pending: seq<C.Message>) {
    && w.client == s.client && w.cores == s.cores && w.shutdowns == s.shutdowns && !w.failed
    && w.pipes.Keys == w.cores.Keys == loads.Keys
    && forall c :: c in w.pipes ==> PipeMatches(n, s, c, w.pipes[c], loads[c], if c == at then pending else [])
  }

  /**
   The board is one the servers take, and what is printed fits its word: the core counts and the number of
   solutions.
   */
  ghost predicate Fits(n: nat, cores: map<nat, nat>) {
    && 1 <= n <= NQueenServer.MAX_QUEENS
    && (forall c :: c in cores ==> cores[c] <= UINT32_MAX)
    && |Completions(n, [])| <= INT64_MAX
  }

  // ----- counting what is in flight -----

  /** Nothing has changed for connection `d`. */
  ghost predicate SameOn(s: Net, t: Net, d: nat) {
    && (forall item: Item :: item.conn == d ==> multiset(t.flight)[item] == multiset(s.flight)[item])
    && (d in t.told <==> d in s.told)
    && t.cores == s.cores
  }

  lemma PipeStays(n: nat, s: Net, t: Net, d: nat, p: Pipe, load: Load, pending: seq<C.Message>)
    requires d in s.cores && SameOn(s, t, d) && PipeMatches(n, s, d, p, load, pending)
    ensures PipeMatches(n, t, d, p, load, pending)
  {
    hide Carries, GoodLine, GoodRequest;
    AskedStays(n, s, t, d, multiset(load.asked) + multiset(p.working));
    LinesStay(s, t, d, p.connected, multiset(pending) + multiset(load.lines));
  }

  lemma AskedStays(n: nat, s: Net, t: Net, d: nat, bag: multiset<Request>)
    requires SameOn(s, t, d) && AskedInFlight(n, s, d, bag)
    ensures AskedInFlight(n, t, d, bag)
  {
    forall r ensures multiset(t.flight)[Asked(d, r)] == bag[r] {
      assert Asked(d, r).conn == d;
    }
  }

  lemma LinesStay(s: Net, t: Net, d: nat, connected: bool, bag: multiset<C.Message>)
    requires d in s.cores && SameOn(s, t, d) && LinesInFlight(s, d, connected, bag)
    ensures LinesInFlight(t, d, connected, bag)
  {
    forall r ensures multiset(t.flight)[Answered(d, r)] == bag[ResponseLine(r)] {
      assert Answered(d, r).conn == d;
    }
  }

  /** A step on connection `c` that leaves the others alone. */
  lemma OnlyOne(n: nat, w: Wire, v: Wire, s: Net, t: Net, loads: map<nat, Load>, at: nat, was: seq<C.Message>,
                c: nat, q: Pipe, load: Load, pending: seq<C.Message>)
    requires Matches(n, w, s, loads, at, was) && (was == [] || at == c) && c in w.pipes
    requires v.pipes == w.pipes[c := q] && v.cores == w.cores && t.cores == s.cores
    requires v.client == t.client && v.shutdowns == t.shutdowns && !v.failed
    requires forall d :: d in w.pipes && d != c ==> SameOn(s, t, d)
    requires PipeMatches(n, t, c, q, load, pending)
    ensures Matches(n, v, t, loads[c := load], c, pending)
  {
    hide PipeMatches, SameOn;
    forall d | d in v.pipes
      ensures PipeMatches(n, t, d, v.pipes[d], loads[c := load][d], if d == c then pending else [])
    {
      if d != c {
        PipeStays(n, s, t, d, w.pipes[d], loads[d], []);
      }
    }
  }

  /** How often an item is among the requests just sent. */
  function AskedOf(c: nat, sent: seq<Request>, item: Item): nat {
    if item.Asked? && item.conn == c then multiset(sent)[item.rqst] else 0
  }

  lemma {:induction false} WrapCounts(c: nat, sent: seq<Request>, item: Item)
    ensures multiset(Wrap(c, sent))[item] == AskedOf(c, sent, item)
  {
    if sent != [] {
      var k := |sent| - 1;
      WrapCounts(c, sent[..k], item);
      assert Wrap(c, sent) == Wrap(c, sent[..k]) + [Asked(c, sent[k])];
      assert sent == sent[..k] + [sent[k]];
    }
  }

  lemma SentCounts(flight: seq<Item>, c: nat, sent: seq<Request>)
    ensures forall item: Item ::
      multiset(flight + Wrap(c, sent))[item] == multiset(flight)[item] + AskedOf(c, sent, item)
  {
    forall item: Item
      ensures multiset(flight + Wrap(c, sent))[item] == multiset(flight)[item] + AskedOf(c, sent, item)
    {
      WrapCounts(c, sent, item);
    }
  }

  lemma InFlight(flight: seq<Item>, item: Item) returns (i: nat)
    requires multiset(flight)[item] > 0
    ensures i < |flight| && flight[i] == item
  {
    assert item in flight;
    i :| 0 <= i < |flight| && flight[i] == item;
  }

  // ----- everything that is sent can be parsed -----

  lemma {:induction false} RowFits(n: nat, i: nat, j: nat)
    requires i < n && j <= n
    ensures forall r :: r in RowRequests(n, i, j) ==> GoodRequest(n, r)
  {
    if j > 0 {
      RowFits(n, i, j - 1);
    }
  }

  lemma {:induction false} FirstRowsFit(n: nat, i: nat)
    requires i <= n
    ensures forall r :: r in FirstRows(n, i) ==> GoodRequest(n, r)
  {
    hide GoodRequest, RowRequests;
    if i > 0 {
      FirstRowsFit(n, i - 1);
      RowFits(n, i - 1, n);
    }
  }

  lemma BoardFits(n: nat)
    requires n >= 1
    ensures forall r :: r in AllRequests(n) ==> GoodRequest(n, r)
  {
    FirstRowsFit(n, (n + 1) / 2);
  }

  /** Every request not yet sent is one of the board. */
  lemma UnsentFit(n: nat, s: Net, k: nat)
    requires n >= 1 && Inv(n, s)
    ensures forall r :: r in Taken(s.client.requests, k) ==> GoodRequest(n, r)
  {
    hide GoodRequest;
    BoardFits(n);
    TakenAndRestAre(s.client.requests, k);
    forall r | r in s.client.requests ensures r in AllRequests(n) {
      assert r in multiset(s.client.requests);
      assert r in multiset(AllRequests(n));
    }
  }

  lemma RequestsFit(n: nat, rs: seq<Request>)
    requires n <= UINT32_MAX && forall r :: r in rs ==> GoodRequest(n, r)
    ensures Faithful(C.ParseLine, C.Show, RequestLines(rs))
  {
    forall m | m in RequestLines(rs) ensures C.WellFormed(m) {
      var i :| 0 <= i < |rs| && RequestLine(rs[i]) == m;
      assert rs[i] in rs;
      forall x | x in m.cols ensures x <= UINT32_MAX {
        assert x in rs[i].cols;
      }
    }
    C.WellFormedLines(RequestLines(rs));
  }

  /** A server's count is a 64-bit number, because it counts some of the solutions. */
  lemma AnswerFits(n: nat, r: Request)
    requires n <= UINT32_MAX && |Completions(n, [])| <= INT64_MAX && GoodRequest(n, r)
    ensures GoodLine(ResponseLine(ServerAnswer(r)))
  {
    assert Completions(n, r.cols) <= Completions(n, []);
    Cardinality(Completions(n, r.cols), Completions(n, []));
    forall x | x in r.cols ensures x <= UINT32_MAX {
    }
  }

  lemma {:induction false} Cardinality<T>(a: set<T>, b: set<T>)
    requires a <= b
    ensures |a| <= |b|
  {
    if a != {} {
      var x :| x in a;
      Cardinality(a - {x}, b - {x});
    }
  }

  lemma {:induction false} RequestsOf(rs: seq<Request>)
    ensures Requests(RequestLines(rs)) == rs && forall m :: m in RequestLines(rs) ==> m.Request?
  {
    if rs != [] {
      assert RequestLines(rs)[1..] == RequestLines(rs[1..]);
      RequestsOf(rs[1..]);
      assert [rs[0]] + rs[1..] == rs;
    }
  }

  // ----- every step over bytes is a few over messages -----

  lemma OpenedLines(s: Net, c: nat, lines: seq<C.Message>)
    requires c in s.cores && s.cores[c] <= UINT32_MAX && LinesInFlight(s, c, false, multiset([]) + multiset(lines))
    ensures LinesInFlight(s, c, true, multiset([]) + multiset(lines + [C.NCores(s.cores[c])]))
  {
    var line := C.NCores(s.cores[c]);
    assert GoodLine(line);
    assert multiset([]) + multiset(lines + [line]) == multiset{line};
    forall r ensures multiset(s.flight)[Answered(c, r)] == multiset{line}[ResponseLine(r)] {
      assert (multiset([]) + multiset(lines))[ResponseLine(r)] == 0;
    }
  }

  lemma OpenMatches(n: nat, w: Wire, s: Net, loads: map<nat, Load>, c: nat) returns (after: map<nat, Load>)
    requires Fits(n, w.cores) && Matches(n, w, s, loads, c, []) && WireEnabled(w, Open(c))
    ensures Matches(n, WireNext(w, Open(c)), s, after, c, [])
  {
    hide Carries, AskedInFlight, LinesInFlight, C.WellFormed;
    var p, load := w.pipes[c], loads[c];
    assert PipeMatches(n, s, c, p, load, []);
    var line := C.NCores(w.cores[c]);
    OpenedLines(s, c, load.lines);
    CarriesMore(C.Show, load.lines, p.atClient, p.toClient, [line]);
    var q := p.(connected := true, toClient := p.toClient + Printed([line]));
    var more := load.(lines := load.lines + [line]);
    assert PipeMatches(n, s, c, q, more, []);
    hide PipeMatches;
    OnlyOne(n, w, WireNext(w, Open(c)), s, s, loads, c, [], c, q, more, []);
    after := loads[c := more];
  }

  /** The first `k` requests and the others. */
  lemma SplitRequests(rs: seq<Request>, k: nat)
    requires k <= |rs|
    ensures RequestLines(rs)[..k] == RequestLines(rs[..k]) && RequestLines(rs)[k..] == RequestLines(rs[k..])
    ensures multiset(rs) == multiset(rs[..k]) + multiset(rs[k..])
  {
    assert rs == rs[..k] + rs[k..];
  }

  lemma AskedFit(n: nat, s: Net, c: nat, asked: seq<Request>, working: seq<Request>)
    requires n <= UINT32_MAX && AskedInFlight(n, s, c, multiset(asked) + multiset(working))
    ensures Faithful(C.ParseLine, C.Show, RequestLines(asked))
    ensures forall r :: r in working ==> GoodRequest(n, r) && multiset(s.flight)[Asked(c, r)] > 0
  {
    hide GoodRequest;
    forall r | r in asked ensures GoodRequest(n, r) {
      assert r in multiset(asked) + multiset(working);
    }
    forall r | r in working ensures GoodRequest(n, r) && multiset(s.flight)[Asked(c, r)] > 0 {
      assert r in multiset(asked) + multiset(working);
    }
    RequestsFit(n, asked);
  }

  lemma ServerMatches(n: nat, w: Wire, s: Net, loads: map<nat, Load>, c: nat, k: nat) returns (after: map<nat, Load>)
    requires Fits(n, w.cores) && Matches(n, w, s, loads, c, []) && WireEnabled(w, ServerGets(c, k))
    ensures Matches(n, WireNext(w, ServerGets(c, k)), s, after, c, [])
  {
    hide Carries, Drain, AskedInFlight, LinesInFlight, Requests;
    var p, load := w.pipes[c], loads[c];
    assert PipeMatches(n, s, c, p, load, []);
    AskedFit(n, s, c, load.asked, p.working);
    var m := CarriesOn(C.ParseLine, C.Show, RequestLines(load.asked), p.atServer, p.toServer, k);
    var d := Drain(C.ParseLine, p.atServer + p.toServer[..k]);
    var got, left := load.asked[..m], load.asked[m..];
    SplitRequests(load.asked, m);
    RequestsOf(got);
    var q := p.(atServer := d.rest, toServer := p.toServer[k..], working := p.working + got);
    var more := load.(asked := left);
    assert multiset(left) + multiset(p.working + got) == multiset(load.asked) + multiset(p.working);
    assert PipeMatches(n, s, c, q, more, []);
    hide PipeMatches;
    OnlyOne(n, w, WireNext(w, ServerGets(c, k)), s, s, loads, c, [], c, q, more, []);
    after := loads[c := more];
  }

  /** A worker's answer replaces its request in flight. */
  lemma ServeCounts(s: Net, i: nat, c: nat)
    requires Enabled(s, Serve(i)) && s.flight[i].conn == c
    ensures var t := Next(s, Serve(i)); var x, y := s.flight[i], t.flight[i];
      && y == Answered(c, ServerAnswer(x.rqst))
      && multiset(t.flight) == multiset(s.flight) - multiset{x} + multiset{y}
      && forall d :: d != c ==> SameOn(s, t, d)
  {
    var t := Next(s, Serve(i));
    hide ServerAnswer;
    assert s.flight == s.flight[..i] + [s.flight[i]] + s.flight[i + 1..];
    assert t.flight == s.flight[..i] + [t.flight[i]] + s.flight[i + 1..];
    ReplacedItem(s, t, s.flight[i], t.flight[i], c);
  }

  lemma ReplacedItem(s: Net, t: Net, x: Item, y: Item, c: nat)
    requires multiset(t.flight) == multiset(s.flight) - multiset{x} + multiset{y} && x.conn == y.conn == c
    requires t.told == s.told && t.cores == s.cores
    ensures forall d :: d != c ==> SameOn(s, t, d)
  {
  }

  lemma AskedLess(n: nat, s: Net, t: Net, c: nat, bag: multiset<Request>, r: Request, y: Item)
    requires AskedInFlight(n, s, c, bag) && r in bag && y.Answered?
    requires multiset(t.flight) == multiset(s.flight) - multiset{Asked(c, r)} + multiset{y}
    ensures AskedInFlight(n, t, c, bag - multiset{r})
  {
  }

  lemma LinesMore(s: Net, t: Net, c: nat, connected: bool, bag: multiset<C.Message>, r: Response, x: Item)
    requires c in s.told && c in s.cores && t.told == s.told && t.cores == s.cores
        && LinesInFlight(s, c, connected, bag)
    requires x.Asked? && multiset(t.flight) == multiset(s.flight) - multiset{x} + multiset{Answered(c, r)}
    requires GoodLine(ResponseLine(r))
    ensures LinesInFlight(t, c, connected, bag + multiset{ResponseLine(r)})
  {
    forall y ensures multiset(t.flight)[Answered(c, y)] == (bag + multiset{ResponseLine(r)})[ResponseLine(y)] {
      assert ResponseLine(y) == ResponseLine(r) <==> y == r;
    }
  }

  lemma WorkedPipe(n: nat, s: Net, t: Net, c: nat, p: Pipe, load: Load, j: nat)
    requires n <= UINT32_MAX && |Completions(n, [])| <= INT64_MAX
    requires c in s.cores && t.cores == s.cores && t.told == s.told && j < |p.working|
        && PipeMatches(n, s, c, p, load, [])
    requires multiset(t.flight) == multiset(s.flight) - multiset{Asked(c, p.working[j])}
        + multiset{Answered(c, ServerAnswer(p.working[j]))}
    requires c in s.told
    ensures var line := ResponseLine(ServerAnswer(p.working[j]));
      PipeMatches(n, t, c, p.(working := Without(p.working, j), toClient := p.toClient + Printed([line])),
                  load.(lines := load.lines + [line]), [])
  {
    hide Carries, GoodLine, GoodRequest, AskedInFlight, LinesInFlight;
    var r := p.working[j];
    var line := ResponseLine(ServerAnswer(r));
    AskedFit(n, s, c, load.asked, p.working);
    AnswerFits(n, r);
    CarriesMore(C.Show, load.lines, p.atClient, p.toClient, [line]);
    SplitAt(p.working, j);
    AskedLess(n, s, t, c, multiset(load.asked) + multiset(p.working), r, Answered(c, ServerAnswer(r)));
    LinesMore(s, t, c, p.connected, multiset([]) + multiset(load.lines), ServerAnswer(r), Asked(c, r));
    assert multiset(load.asked) + multiset(p.working) - multiset{r}
        == multiset(load.asked) + multiset(Without(p.working, j));
    assert multiset([]) + multiset(load.lines + [line]) == multiset([]) + multiset(load.lines) + multiset{line};
  }

  lemma WorkMatches(n: nat, w: Wire, s: Net, loads: map<nat, Load>, c: nat, j: nat)
    returns (steps: seq<Step>, after: map<nat, Load>)
    requires Fits(n, w.cores) && Inv(n, s) && Matches(n, w, s, loads, c, []) && WireEnabled(w, Work(c, j))
    ensures CanRun(s, steps) && Matches(n, WireNext(w, Work(c, j)), After(s, steps), after, c, [])
  {
    hide Carries, Inv, AskedInFlight, LinesInFlight;
    var p, load := w.pipes[c], loads[c];
    assert PipeMatches(n, s, c, p, load, []);
    var r := p.working[j];
    AskedFit(n, s, c, load.asked, p.working);
    var i := InFlight(s.flight, Asked(c, r));
    ServeCounts(s, i, c);
    AskedIsTold(n, s, i);
    var t := Next(s, Serve(i));
    var line := ResponseLine(ServerAnswer(r));
    WorkedPipe(n, s, t, c, p, load, j);
    hide PipeMatches;
    var q := p.(working := Without(p.working, j), toClient := p.toClient + Printed([line]));
    OnlyOne(n, w, WireNext(w, Work(c, j)), s, t, loads, c, [], c, q, load.(lines := load.lines + [line]), []);
    steps := [Serve(i)];
    assert steps[1..] == [];
    after := loads[c := load.(lines := load.lines + [line])];
  }

  lemma AskedIsTold(n: nat, s: Net, i: nat)
    requires Inv(n, s) && i < |s.flight|
    ensures s.flight[i].conn in s.told
  {
    assert s.flight[i] in s.flight;
  }

  /** The requests the client sends go out on the connection it heard from. */
  lemma SentCarries(p: Pipe, load: Load, sent: seq<Request>)
    requires Carries(C.Show, RequestLines(load.asked), p.atServer, p.toServer)
    ensures Carries(C.Show, RequestLines(load.asked + sent), p.atServer, p.toServer + Printed(RequestLines(sent)))
  {
    CarriesMore(C.Show, RequestLines(load.asked), p.atServer, p.toServer, RequestLines(sent));
    assert RequestLines(load.asked + sent) == RequestLines(load.asked) + RequestLines(sent);
  }

  /** The requests sent are in flight; `flight` is what was there before, with the same requests. */
  lemma SentAsked(n: nat, s: Net, t: Net, flight: seq<Item>, c: nat, bag: multiset<Request>, sent: seq<Request>)
    requires AskedInFlight(n, s, c, bag) && (forall r :: r in sent ==> GoodRequest(n, r))
    requires forall r :: multiset(flight)[Asked(c, r)] == multiset(s.flight)[Asked(c, r)]
    requires t.flight == flight + Wrap(c, sent)
    ensures AskedInFlight(n, t, c, bag + multiset(sent))
  {
    hide GoodRequest;
    SentCounts(flight, c, sent);
    forall r ensures multiset(t.flight)[Asked(c, r)] == (bag + multiset(sent))[r] {
      assert AskedOf(c, sent, Asked(c, r)) == multiset(sent)[r];
    }
  }

  lemma ToldLines(s: Net, t: Net, c: nat, connected: bool, bag: multiset<C.Message>, sent: seq<Request>)
    requires c in s.cores && c !in s.told && t.cores == s.cores && c in t.told && LinesInFlight(s, c, connected, bag)
        && connected
    requires t.flight == s.flight + Wrap(c, sent)
    ensures LinesInFlight(t, c, connected, multiset{})
  {
    SentCounts(s.flight, c, sent);
    forall r ensures multiset(t.flight)[Answered(c, r)] == 0 {
      assert bag[ResponseLine(r)] == 0 && AskedOf(c, sent, Answered(c, r)) == 0;
    }
  }

  lemma SentElsewhere(s: Net, t: Net, c: nat, d: nat, flight: seq<Item>, sent: seq<Request>)
    requires c != d && t.cores == s.cores && (d in t.told <==> d in s.told) && t.flight == flight + Wrap(c, sent)
    requires forall item: Item :: item.conn == d ==> multiset(flight)[item] == multiset(s.flight)[item]
    ensures SameOn(s, t, d)
  {
    SentCounts(flight, c, sent);
    forall item: Item | item.conn == d ensures multiset(t.flight)[item] == multiset(s.flight)[item] {
      assert AskedOf(c, sent, item) == 0;
    }
  }

  lemma OneLineLeft(pending: seq<C.Message>, lines: seq<C.Message>, m: C.Message)
    requires multiset(pending) + multiset(lines) == multiset{m} && pending != []
    ensures pending == [m] && lines == []
  {
    assert |multiset(pending) + multiset(lines)| == |pending| + |lines| == 1;
    assert pending == [pending[0]];
    assert pending[0] in multiset(pending) + multiset(lines);
  }

  /** The core count is taken: the connection has told, and its first requests are on their way. */
  lemma ToldPipe(n: nat, s: Net, t: Net, c: nat, p: Pipe, load: Load, sent: seq<Request>, pending: seq<C.Message>)
    requires c in s.cores && c !in s.told && t.cores == s.cores && t.told == s.told + {c}
    requires PipeMatches(n, s, c, p, load, pending) && pending != []
    requires t.flight == s.flight + Wrap(c, sent) && forall r :: r in sent ==> GoodRequest(n, r)
    ensures pending == [C.NCores(s.cores[c])]
    ensures PipeMatches(n, t, c, p.(toServer := p.toServer + Printed(RequestLines(sent))),
        load.(asked := load.asked + sent), [])
    ensures forall d :: d != c ==> SameOn(s, t, d)
  {
    hide Carries, GoodRequest, GoodLine, AskedInFlight, SameOn;
    NotToldYet(s, c, p.connected, pending, load.lines);
    SentCarries(p, load, sent);
    SentAsked(n, s, t, s.flight, c, multiset(load.asked) + multiset(p.working), sent);
    ToldLines(s, t, c, p.connected, multiset(pending) + multiset(load.lines), sent);
    hide LinesInFlight;
    assert multiset(load.asked + sent) + multiset(p.working)
        == multiset(load.asked) + multiset(p.working) + multiset(sent);
    assert multiset([]) + multiset(load.lines) == multiset{};
    forall d | d != c ensures SameOn(s, t, d) {
      SentElsewhere(s, t, c, d, s.flight, sent);
    }
  }

  lemma NotToldYet(s: Net, c: nat, connected: bool, pending: seq<C.Message>, lines: seq<C.Message>)
    requires c in s.cores && c !in s.told && pending != []
    requires LinesInFlight(s, c, connected, multiset(pending) + multiset(lines))
    ensures connected && pending == [C.NCores(s.cores[c])] && lines == []
  {
    assert pending[0] in multiset(pending) + multiset(lines);
    OneLineLeft(pending, lines, C.NCores(s.cores[c]));
  }

  lemma AnsweredLines(s: Net, t: Net, c: nat, connected: bool, bag: multiset<C.Message>, i: nat, sent: seq<Request>)
    requires c in s.cores && c in s.told && t.cores == s.cores && t.told == s.told
        && LinesInFlight(s, c, connected, bag)
    requires i < |s.flight| && s.flight[i].Answered? && s.flight[i].conn == c && ResponseLine(s.flight[i].rsps) in bag
    requires t.flight == Without(s.flight, i) + Wrap(c, sent)
    ensures LinesInFlight(t, c, connected, bag - multiset{ResponseLine(s.flight[i].rsps)})
  {
    hide GoodLine;
    SplitAt(s.flight, i);
    SentCounts(Without(s.flight, i), c, sent);
    forall r ensures multiset(t.flight)[Answered(c, r)]
        == (bag - multiset{ResponseLine(s.flight[i].rsps)})[ResponseLine(r)] {
      assert AskedOf(c, sent, Answered(c, r)) == 0;
      assert ResponseLine(r) == ResponseLine(s.flight[i].rsps) <==> r == s.flight[i].rsps;
    }
  }

  /** An answer is taken: it leaves the flight, and the next request is on its way. */
  lemma AnsweredPipe(
    n: nat, s: Net, t: Net, c: nat, p: Pipe, load: Load, sent: seq<Request>, pending: seq<C.Message>, i: nat)
    requires c in s.cores && c in s.told && t.cores == s.cores && t.told == s.told
    requires pending != [] && PipeMatches(n, s, c, p, load, pending)
    requires i < |s.flight| && s.flight[i].Answered? && s.flight[i].conn == c
        && pending[0] == ResponseLine(s.flight[i].rsps)
    requires t.flight == Without(s.flight, i) + Wrap(c, sent) && forall r :: r in sent ==> GoodRequest(n, r)
    ensures PipeMatches(n, t, c, p.(toServer := p.toServer + Printed(RequestLines(sent))),
        load.(asked := load.asked + sent), pending[1..])
    ensures forall d :: d != c ==> SameOn(s, t, d)
  {
    hide Carries, GoodRequest, GoodLine, AskedInFlight, LinesInFlight, SameOn;
    SentCarries(p, load, sent);
    SplitAt(s.flight, i);
    SentAsked(n, s, t, Without(s.flight, i), c, multiset(load.asked) + multiset(p.working), sent);
    FirstPending(pending, load.lines);
    AnsweredLines(s, t, c, p.connected, multiset(pending) + multiset(load.lines), i, sent);
    assert multiset(load.asked + sent) + multiset(p.working)
        == multiset(load.asked) + multiset(p.working) + multiset(sent);
    forall d | d != c ensures SameOn(s, t, d) {
      SentElsewhere(s, t, c, d, Without(s.flight, i), sent);
    }
  }

  lemma FirstPending(pending: seq<C.Message>, lines: seq<C.Message>)
    requires pending != []
    ensures pending[0] in multiset(pending) + multiset(lines)
    ensures multiset(pending) + multiset(lines) - multiset{pending[0]} == multiset(pending[1..]) + multiset(lines)
  {
    assert pending == [pending[0]] + pending[1..];
  }

  /** A line of a connection that has told its cores is an answer in flight. */
  lemma LineIsAnswer(s: Net, c: nat, connected: bool, bag: multiset<C.Message>, m: C.Message) returns (i: nat)
    requires c in s.cores && c in s.told && LinesInFlight(s, c, connected, bag) && m in bag
    ensures m.Response? && m.count >= 0
    ensures i < |s.flight| && s.flight[i] == Answered(c, Response(m.count, m.cols))
        && m == ResponseLine(s.flight[i].rsps)
  {
    assert GoodLine(m);
    var rsps := Response(m.count, m.cols);
    assert ResponseLine(rsps) == m;
    i := InFlight(s.flight, Answered(c, rsps));
  }

  lemma AnswerIsTaken(n: nat, w: Wire, s: Net, loads: map<nat, Load>, c: nat, pending: seq<C.Message>)
    returns (i: nat, after: map<nat, Load>)
    requires n >= 1 && Inv(n, s) && c in w.pipes && c in s.told && pending != [] && Matches(n, w, s, loads, c, pending)
    ensures Enabled(s, Step.Deliver(i))
    ensures Matches(n, Take(w, c, pending[0]), Next(s, Step.Deliver(i)), after, c, pending[1..])
  {
    hide Carries, Inv, Taken, Rest, AskedInFlight, LinesInFlight, Weighed;
    var p, load := w.pipes[c], loads[c];
    assert PipeMatches(n, s, c, p, load, pending);
    FirstPending(pending, load.lines);
    i := LineIsAnswer(s, c, p.connected, multiset(pending) + multiset(load.lines), pending[0]);
    var sent := Taken(s.client.requests, 1);
    UnsentFit(n, s, 1);
    var t := Next(s, Step.Deliver(i));
    AnsweredPipe(n, s, t, c, p, load, sent, pending, i);
    hide PipeMatches, SameOn;
    var q := p.(toServer := p.toServer + Printed(RequestLines(sent)));
    after := loads[c := load.(asked := load.asked + sent)];
    OnlyOne(n, w, Take(w, c, pending[0]), s, t, loads, c, pending, c, q, load.(asked := load.asked + sent),
        pending[1..]);
  }

  lemma CoresAreTaken(n: nat, w: Wire, s: Net, loads: map<nat, Load>, c: nat, pending: seq<C.Message>)
    returns (after: map<nat, Load>)
    requires n >= 1 && Inv(n, s) && c in w.pipes && c !in s.told && pending != [] && Matches(n, w, s, loads, c, pending)
    ensures Enabled(s, Tell(c)) && Matches(n, Take(w, c, pending[0]), Next(s, Tell(c)), after, c, pending[1..])
  {
    hide Carries, Inv, Taken, Rest, AskedInFlight, LinesInFlight;
    var p, load := w.pipes[c], loads[c];
    assert PipeMatches(n, s, c, p, load, pending);
    var sent := Taken(s.client.requests, s.cores[c]);
    UnsentFit(n, s, s.cores[c]);
    var t := Next(s, Tell(c));
    ToldPipe(n, s, t, c, p, load, sent, pending);
    assert pending[1..] == [];
    hide PipeMatches, SameOn;
    var q := p.(toServer := p.toServer + Printed(RequestLines(sent)));
    after := loads[c := load.(asked := load.asked + sent)];
    OnlyOne(n, w, Take(w, c, pending[0]), s, t, loads, c, pending, c, q, load.(asked := load.asked + sent), []);
  }

  /** One parsed line handed to the client is one step over messages. */
  lemma TakeMatches(n: nat, w: Wire, s: Net, loads: map<nat, Load>, c: nat, pending: seq<C.Message>)
    returns (step: Step, after: map<nat, Load>)
    requires n >= 1 && Inv(n, s) && c in w.pipes && pending != [] && Matches(n, w, s, loads, c, pending)
    ensures Enabled(s, step) && Matches(n, Take(w, c, pending[0]), Next(s, step), after, c, pending[1..])
  {
    hide Inv, Matches, Take, Next, Enabled;
    if c in s.told {
      var i;
      i, after := AnswerIsTaken(n, w, s, loads, c, pending);
      step := Step.Deliver(i);
    } else {
      after := CoresAreTaken(n, w, s, loads, c, pending);
      step := Tell(c);
    }
  }

  lemma {:induction false} TakeAllMatches(
    n: nat, w: Wire, s: Net, loads: map<nat, Load>, c: nat, pending: seq<C.Message>)
    returns (steps: seq<Step>, after: map<nat, Load>)
    requires n >= 1 && Inv(n, s) && c in w.pipes && Matches(n, w, s, loads, c, pending)
    ensures CanRun(s, steps) && Matches(n, TakeAll(w, c, pending), After(s, steps), after, c, [])
    decreases |pending|
  {
    if pending == [] {
      return [], loads;
    }
    hide Inv, Matches, Take, Next, Enabled;
    var step, more := TakeMatches(n, w, s, loads, c, pending);
    StepKeeps(n, s, step);
    var rest;
    rest, after := TakeAllMatches(n, Take(w, c, pending[0]), Next(s, step), more, c, pending[1..]);
    steps := [step] + rest;
    assert steps[1..] == rest;
  }

  lemma LinesFit(s: Net, c: nat, connected: bool, lines: seq<C.Message>)
    requires c in s.cores && LinesInFlight(s, c, connected, multiset([]) + multiset(lines))
    ensures Faithful(C.ParseLine, C.Show, lines)
  {
    forall m | m in lines ensures C.WellFormed(m) {
      assert m in multiset([]) + multiset(lines);
      assert GoodLine(m);
    }
    C.WellFormedLines(lines);
  }

  lemma ClientMatches(n: nat, w: Wire, s: Net, loads: map<nat, Load>, c: nat, k: nat)
    returns (steps: seq<Step>, after: map<nat, Load>)
    requires Fits(n, w.cores) && Inv(n, s) && Matches(n, w, s, loads, c, []) && WireEnabled(w, ClientGets(c, k))
    ensures CanRun(s, steps) && Matches(n, WireNext(w, ClientGets(c, k)), After(s, steps), after, c, [])
  {
    hide Carries, Drain, Inv, TakeAll, AskedInFlight, LinesInFlight;
    var p, load := w.pipes[c], loads[c];
    assert PipeMatches(n, s, c, p, load, []);
    LinesFit(s, c, p.connected, load.lines);
    var m := CarriesOn(C.ParseLine, C.Show, load.lines, p.atClient, p.toClient, k);
    var d := Drain(C.ParseLine, p.atClient + p.toClient[..k]);
    var q := p.(atClient := d.rest, toClient := p.toClient[k..]);
    var left := load.(lines := load.lines[m..]);
    assert load.lines == load.lines[..m] + left.lines;
    assert multiset(load.lines[..m]) + multiset(left.lines) == multiset([]) + multiset(load.lines);
    assert PipeMatches(n, s, c, q, left, load.lines[..m]);
    hide PipeMatches;
    var v := w.(pipes := w.pipes[c := q]);
    OnlyOne(n, w, v, s, s, loads, c, [], c, q, left, load.lines[..m]);
    assert WireNext(w, ClientGets(c, k)) == TakeAll(v, c, d.msgs);
    steps, after := TakeAllMatches(n, v, s, loads[c := left], c, load.lines[..m]);
  }

  /** With nothing pending it does not matter which connection was last. */
  lemma AnyLast(n: nat, w: Wire, s: Net, loads: map<nat, Load>, at: nat, c: nat)
    requires Matches(n, w, s, loads, at, [])
    ensures Matches(n, w, s, loads, c, [])
  {
  }

  lemma StepMatches(n: nat, w: Wire, s: Net, loads: map<nat, Load>, step: WireStep)
    returns (steps: seq<Step>, after: map<nat, Load>)
    requires Fits(n, w.cores) && Inv(n, s) && Matches(n, w, s, loads, step.c, []) && WireEnabled(w, step)
    ensures CanRun(s, steps) && Matches(n, WireNext(w, step), After(s, steps), after, step.c, [])
  {
    hide Inv, Matches, WireNext, Fits;
    match step
    case Open(c) =>
      after := OpenMatches(n, w, s, loads, c);
      steps := [];
    case ServerGets(c, k) =>
      after := ServerMatches(n, w, s, loads, c, k);
      steps := [];
    case Work(c, j) => steps, after := WorkMatches(n, w, s, loads, c, j);
    case ClientGets(c, k) => steps, after := ClientMatches(n, w, s, loads, c, k);
  }

  lemma {:induction false} RunThen(s: Net, first: seq<Step>, rest: seq<Step>)
    requires CanRun(s, first) && CanRun(After(s, first), rest)
    ensures CanRun(s, first + rest) && After(s, first + rest) == After(After(s, first), rest)
    decreases |first|
  {
    if first == [] {
      assert first + rest == rest;
    } else {
      assert (first + rest)[1..] == first[1..] + rest;
      RunThen(Next(s, first[0]), first[1..], rest);
    }
  }

  lemma SameCoresOverBytes(n: nat, w: Wire, s: Net, loads: map<nat, Load>, at: nat, pending: seq<C.Message>)
    requires Matches(n, w, s, loads, at, pending)
    ensures w.cores == s.cores && w.client == s.client && w.shutdowns == s.shutdowns && !w.failed
  {
  }

  /** Every run over bytes stands for a run over messages. */
  lemma {:induction false} RunMatches(n: nat, w: Wire, s: Net, loads: map<nat, Load>, wireSteps: seq<WireStep>)
    returns (steps: seq<Step>, after: map<nat, Load>)
    requires Fits(n, w.cores) && Inv(n, s) && Matches(n, w, s, loads, 0, []) && WireCanRun(w, wireSteps)
    ensures CanRun(s, steps) && Matches(n, WireAfter(w, wireSteps), After(s, steps), after, 0, [])
    decreases |wireSteps|
  {
    if wireSteps == [] {
      return [], loads;
    }
    hide Inv, Matches, Fits, WireNext, WireEnabled;
    AnyLast(n, w, s, loads, 0, wireSteps[0].c);
    var first, more := StepMatches(n, w, s, loads, wireSteps[0]);
    var v, t := WireNext(w, wireSteps[0]), After(s, first);
    RunKeeps(n, s, first);
    SameCores(s, first);
    SameCoresOverBytes(n, w, s, loads, 0, []);
    SameCoresOverBytes(n, v, t, more, wireSteps[0].c, []);
    AnyLast(n, v, t, more, wireSteps[0].c, 0);
    var rest;
    rest, after := RunMatches(n, v, t, more, wireSteps[1..]);
    RunThen(s, first, rest);
    steps := first + rest;
  }

  lemma StartMatches(n: nat, cores: map<nat, nat>) returns (loads: map<nat, Load>)
    ensures Matches(n, WireInit(n, cores), Init(n, cores), loads, 0, [])
  {
    loads := map c | c in cores :: Load([], []);
    var w, s := WireInit(n, cores), Init(n, cores);
    forall c | c in w.pipes ensures PipeMatches(n, s, c, w.pipes[c], loads[c], []) {
      assert RequestLines([]) == [];
    }
  }

  // ----- the promises, over byte streams -----

  /**
   However the bytes are cut and interleaved and in whatever order the workers finish: no line is malformed or
   unexpected, the answer is announced once at most, and it is the number of solutions of the whole board.
   */
  lemma AnswerOverBytes(n: nat, cores: map<nat, nat>, wireSteps: seq<WireStep>)
    requires Fits(n, cores) && WireCanRun(WireInit(n, cores), wireSteps)
    ensures var w := WireAfter(WireInit(n, cores), wireSteps);
      && !w.failed && w.shutdowns <= 1
      && (w.client.totalResponse == w.client.totalRequests ==> w.client.answers == |Completions(n, [])|)
  {
    var loads := StartMatches(n, cores);
    InitKeeps(n, cores);
    var steps, after := RunMatches(n, WireInit(n, cores), Init(n, cores), loads, wireSteps);
    RunKeeps(n, Init(n, cores), steps);
    AnnouncedAnswerIsExact(n, cores, steps);
  }

  /** When every server is connected, no byte is on its way and no worker is busy, the answer has been announced. */
  lemma SilenceMeansAnnounced(n: nat, cores: map<nat, nat>, wireSteps: seq<WireStep>, c: nat)
    requires Fits(n, cores) && WireCanRun(WireInit(n, cores), wireSteps) && c in cores && cores[c] > 0
    requires forall step :: !WireEnabled(WireAfter(WireInit(n, cores), wireSteps), step)
    ensures var w := WireAfter(WireInit(n, cores), wireSteps);
      w.shutdowns == 1 && w.client.answers == |Completions(n, [])|
  {
    var loads := StartMatches(n, cores);
    InitKeeps(n, cores);
    var steps, after := RunMatches(n, WireInit(n, cores), Init(n, cores), loads, wireSteps);
    var w, s := WireAfter(WireInit(n, cores), wireSteps), After(Init(n, cores), steps);
    RunKeeps(n, Init(n, cores), steps);
    SameCores(Init(n, cores), steps);
    forall step ensures !Enabled(s, step) {
      Silent(n, w, s, after, step);
    }
    StuckMeansAnnounced(n, cores, steps, c);
  }

  lemma SilentPipe(n: nat, w: Wire, s: Net, loads: map<nat, Load>, c: nat)
    requires Fits(n, w.cores) && Matches(n, w, s, loads, 0, []) && c in w.pipes
    requires forall step :: !WireEnabled(w, step)
    ensures c in s.told && forall item: Item :: item.conn == c ==> multiset(s.flight)[item] == 0
  {
    hide Carries, AskedInFlight, LinesInFlight;
    var p, load := w.pipes[c], loads[c];
    assert PipeMatches(n, s, c, p, load, []);
    SilentBytes(w, c);
    AskedFit(n, s, c, load.asked, p.working);
    LinesFit(s, c, p.connected, load.lines);
    NothingComing(C.ParseLine, C.Show, RequestLines(load.asked), p.atServer);
    NothingComing(C.ParseLine, C.Show, load.lines, p.atClient);
    assert |RequestLines(load.asked)| == |load.asked|;
    assert multiset(load.asked) + multiset(p.working) == multiset{}
        && multiset([]) + multiset(load.lines) == multiset{};
    NothingInFlight(n, s, c);
  }

  lemma SilentBytes(w: Wire, c: nat)
    requires c in w.pipes && w.pipes.Keys == w.cores.Keys && forall step :: !WireEnabled(w, step)
    ensures var p := w.pipes[c]; p.connected && p.toServer == "" && p.toClient == "" && p.working == []
  {
    assert !WireEnabled(w, Open(c)) && !WireEnabled(w, Work(c, 0));
    assert !WireEnabled(w, ServerGets(c, 1)) && !WireEnabled(w, ClientGets(c, 1));
  }

  lemma NothingInFlight(n: nat, s: Net, c: nat)
    requires c in s.cores && AskedInFlight(n, s, c, multiset{}) && LinesInFlight(s, c, true, multiset{})
    ensures c in s.told && forall item: Item :: item.conn == c ==> multiset(s.flight)[item] == 0
  {
    forall item: Item | item.conn == c ensures multiset(s.flight)[item] == 0 {
      match item
      case Asked(_, r) => assert multiset(s.flight)[Asked(c, r)] == 0;
      case Answered(_, r) => assert multiset(s.flight)[Answered(c, r)] == 0;
    }
    assert C.NCores(s.cores[c]) !in multiset{};
  }

  lemma Silent(n: nat, w: Wire, s: Net, loads: map<nat, Load>, step: Step)
    requires Fits(n, w.cores) && Inv(n, s) && Matches(n, w, s, loads, 0, [])
    requires forall step :: !WireEnabled(w, step)
    ensures !Enabled(s, step)
  {
    match step {
      case Tell(c) =>
        if c in s.cores {
          SilentPipe(n, w, s, loads, c);
        }
      case Serve(i) => SilentFlight(n, w, s, loads, i);
      case Deliver(i) => SilentFlight(n, w, s, loads, i);
    }
  }

  lemma SilentFlight(n: nat, w: Wire, s: Net, loads: map<nat, Load>, i: nat)
    requires Fits(n, w.cores) && Inv(n, s) && Matches(n, w, s, loads, 0, [])
    requires forall step :: !WireEnabled(w, step)
    ensures i >= |s.flight|
  {
    if i < |s.flight| {
      AskedIsTold(n, s, i);
      FlownIsCounted(s.flight, i);
      SilentPipe(n, w, s, loads, s.flight[i].conn);
    }
  }

  lemma FlownIsCounted(flight: seq<Item>, i: nat)
    requires i < |flight|
    ensures multiset(flight)[flight[i]] > 0
  {
    assert flight[i] in flight;
  }
}
