/**
 The k-th element client and its servers over byte streams: every message is printed, travels as bytes that arrive
 in chunks of any size, and is parsed from the receiver's buffer. The runs are those of `KthSystem`.
 */
module KthWire {
  import opened Common
  import opened Counting
  import opened Framing
  import opened KthClient
  import opened KthSystem
  import C = KthCodec

  // ----- bytes -----

  /** One connection: what each side has buffered, and the bytes on their way to it. */
  datatype Pipe = Pipe(connected: bool, atServer: string, toServer: string, atClient: string, toClient: string)

  /** `failed` tells that a line was malformed, or of a kind its receiver does not expect. */
  datatype Wire = Wire(client: Client, pipes: seq<Pipe>, failed: bool)

  /** `n` bytes arrive at the server, or at the client. */
  datatype WireStep = Open(i: nat) | ServerGets(i: nat, n: nat) | ClientGets(i: nat, n: nat)

  function WireInit(n: nat, k: int): Wire {
    Wire(InitClient(n, k), seq(n, _ => Pipe(false, "", "", "", "")), false)
  }

  function Printed(msgs: seq<C.Message>): string {
    Stream(C.Show, msgs)
  }

  function StateLine(s: seq<int>): C.Message
    requires s != []
  {
    C.State(SumElems(s), |s|, MinElem(s), MaxElem(s))
  }

  /** What a server answers, one line a query. */
  function Replies(s: seq<int>, msgs: seq<C.Message>): seq<C.Message> {
    if msgs == [] then []
    else (match msgs[0]
          case Query(g) => [C.Answer(CountLess(s, g), CountEqual(s, g))]
          case _ => []) + Replies(s, msgs[1..])
  }

  function SendQueries(pipes: seq<Pipe>, guess: int): seq<Pipe> {
    seq(|pipes|, i requires 0 <= i < |pipes| =>
      if pipes[i].connected then pipes[i].(toServer := pipes[i].toServer + Printed([C.Query(guess)])) else pipes[i])
  }

  /** The client's callbacks on one parsed message. */
  function Take(w: Wire, msg: C.Message): Wire {
    match msg
    case State(sum, count, min, max) =>
      var client := OnServerState(w.client, sum, count, min, max);
      w.(client := client, pipes := if AllToldState(client) then SendQueries(w.pipes, client.guess) else w.pipes)
    case Answer(nLess, nEqual) =>
      var client := OnAnswer(w.client, nLess, nEqual);
      var again := AllAnswered(AddAnswer(w.client, nLess, nEqual)) && !client.found;
      w.(client := client, pipes := if again then SendQueries(w.pipes, client.guess) else w.pipes)
    case Query(_) => w.(failed := true)
  }

  function TakeAll(w: Wire, msgs: seq<C.Message>): Wire
    decreases |msgs|
  {
    if msgs == [] then w else TakeAll(Take(w, msgs[0]), msgs[1..])
  }

  predicate WireEnabled(data: seq<seq<int>>, w: Wire, step: WireStep) {
    && |w.pipes| == |data| && step.i < |data|
    && match step
       case Open(i) => !w.pipes[i].connected && data[i] != []
       case ServerGets(i, n) => 0 < n <= |w.pipes[i].toServer|
       case ClientGets(i, n) => 0 < n <= |w.pipes[i].toClient|
  }

  function WireNext(data: seq<seq<int>>, w: Wire, step: WireStep): Wire
    requires WireEnabled(data, w, step)
  {
    var p := w.pipes[step.i];
    match step
    case Open(i) =>
      w.(pipes := w.pipes[i := p.(connected := true, toClient := p.toClient + Printed([StateLine(data[i])]))])
    case ServerGets(i, n) =>
      var d := Drain(C.ParseLine, p.atServer + p.toServer[..n]);
      w.(pipes := w.pipes[i := p.(atServer := d.rest, toServer := p.toServer[n..],
                                  toClient := p.toClient + Printed(Replies(data[i], d.msgs)))],
         failed := w.failed || !d.ok || exists m :: m in d.msgs && !m.Query?)
    case ClientGets(i, n) =>
      var d := Drain(C.ParseLine, p.atClient + p.toClient[..n]);
      var q := p.(atClient := d.rest, toClient := p.toClient[n..]);
      TakeAll(w.(pipes := w.pipes[i := q], failed := w.failed || !d.ok), d.msgs)
  }

  ghost predicate WireCanRun(data: seq<seq<int>>, w: Wire, steps: seq<WireStep>)
    decreases |steps|
  {
    steps == [] || (WireEnabled(data, w, steps[0]) && WireCanRun(data, WireNext(data, w, steps[0]), steps[1..]))
  }

  ghost function WireAfter(data: seq<seq<int>>, w: Wire, steps: seq<WireStep>): Wire
    requires WireCanRun(data, w, steps)
    decreases |steps|
  {
    if steps == [] then w else WireAfter(data, WireNext(data, w, steps[0]), steps[1..])
  }

  // ----- bytes stand for messages -----

  function QueryLines(queries: seq<int>): seq<C.Message> {
    seq(|queries|, i requires 0 <= i < |queries| => C.Query(queries[i]))
  }

  function Line(m: Message): C.Message {
    match m
    case State(sum, count, min, max) => C.State(sum, count, min, max)
    case Answer(_, nLess, nEqual) => C.Answer(nLess, nEqual)
  }

  function Lines(msgs: seq<Message>): seq<C.Message> {
    seq(|msgs|, i requires 0 <= i < |msgs| => Line(msgs[i]))
  }

  ghost predicate PipeCarries(p: Pipe, l: Link) {
    && p.connected == l.connected
    && Carries(C.Show, QueryLines(l.queries), p.atServer, p.toServer)
    && Carries(C.Show, Lines(l.messages), p.atClient, p.toClient)
  }

  /** The bytes of every connection are the printed messages of its link. */
  ghost predicate Matches(w: Wire, s: Net) {
    && w.client == s.client && !w.failed && |w.pipes| == |s.links|
    && forall i :: 0 <= i < |s.links| ==> PipeCarries(w.pipes[i], s.links[i])
  }

  /** The servers' counts are 64-bit numbers. */
  ghost predicate Countable(data: seq<seq<int>>) {
    |Flatten(data)| <= INT64_MAX
  }

  // ----- everything that is sent can be parsed -----

  lemma {:induction false} ShardSize(data: seq<seq<int>>, i: nat)
    requires i < |data|
    ensures |data[i]| <= |Flatten(data)|
  {
    var k := |data| - 1;
    if i < k {
      ShardSize(data[..k], i);
    }
  }

  lemma {:induction false} SumFits(s: seq<int>)
    requires forall x :: x in s ==> INT64_MIN <= x <= INT64_MAX
    ensures INT64_MIN * |s| <= SumElems(s) <= INT64_MAX * |s|
  {
    if s != [] {
      var k := |s| - 1;
      assert s[k] in s && forall x :: x in s[..k] ==> x in s;
      SumFits(s[..k]);
    }
  }

  lemma CountsFit(s: seq<int>, v: int)
    ensures 0 <= CountLess(s, v) <= |s| && 0 <= CountEqual(s, v) <= |s|
  {
    CountMonotone(s, v, v + 1);
    CountNext(s, v);
  }

  lemma StateFits(data: seq<seq<int>>, i: nat)
    requires GoodData(data) && Countable(data) && i < |data|
    ensures C.WellFormed(StateLine(data[i]))
  {
    ShardSize(data, i);
    InFlatten(data, i);
    MinMaxElem(data[i]);
    SumFits(data[i]);
    WordProduct(|data[i]|);
  }

  lemma WordProduct(n: nat)
    requires n <= INT64_MAX
    ensures INT128_MIN < INT64_MIN * n && INT64_MAX * n <= INT128_MAX
  {
  }

  lemma GuessFits(data: seq<seq<int>>, k: int, s: Net)
    requires GoodData(data) && Inv(data, k, s) && Rounds(data, k, s)
    ensures INT64_MIN <= s.client.guess <= INT64_MAX
  {
    Bracket(Flatten(data), s.client.kth, s.client.low, s.client.high);
  }

  /** No connection ever holds more than one message, and it is well formed. */
  lemma LinkFits(data: seq<seq<int>>, k: int, s: Net, i: nat)
    requires GoodData(data) && Countable(data) && Inv(data, k, s) && i < |data|
    ensures |s.links[i].queries| <= 1 && forall q :: q in s.links[i].queries ==> C.WellFormed(C.Query(q))
    ensures |s.links[i].messages| <= 1 && forall m :: m in s.links[i].messages ==> C.WellFormed(Line(m))
  {
    hide CountLess, CountEqual, SumElems, MinElem, MaxElem, Flatten;
    if Gathering(data, k, s) {
      StateFits(data, i);
      assert StateLink(data[i], s.links[i], s.heard[i]);
    } else if Rounds(data, k, s) {
      GuessFits(data, k, s);
      ShardSize(data, i);
      CountsFit(data[i], s.client.guess);
      assert RoundLink(data[i], s.links[i], s.heard[i], s.client.guess);
    }
  }

  lemma LinesFit(data: seq<seq<int>>, k: int, s: Net, i: nat)
    requires GoodData(data) && Countable(data) && Inv(data, k, s) && i < |data|
    ensures Faithful(C.ParseLine, C.Show, QueryLines(s.links[i].queries))
    ensures Faithful(C.ParseLine, C.Show, Lines(s.links[i].messages))
  {
    LinkFits(data, k, s, i);
    C.WellFormedLines(QueryLines(s.links[i].queries));
    C.WellFormedLines(Lines(s.links[i].messages));
  }

  // ----- every step over bytes is one over messages, or none -----

  lemma OpenMatches(data: seq<seq<int>>, w: Wire, s: Net, i: nat)
    requires |s.heard| == |s.links| == |data| && Matches(w, s) && WireEnabled(data, w, Open(i))
    ensures Enabled(data, s, Connect(i)) && Matches(WireNext(data, w, Open(i)), Next(data, s, Connect(i)))
  {
    hide Carries;
    var p, l := w.pipes[i], s.links[i];
    assert PipeCarries(p, l);
    CarriesMore(C.Show, Lines(l.messages), p.atClient, p.toClient, [StateLine(data[i])]);
    assert Lines(l.messages + [StateOf(data[i])]) == Lines(l.messages) + [StateLine(data[i])];
  }

  lemma Shape(data: seq<seq<int>>, k: int, s: Net)
    requires GoodData(data) && Inv(data, k, s)
    ensures |s.links| == |s.heard| == |data|
  {
  }

  /** One query taken out of a server's buffer is answered on the same connection. */
  lemma ReplyMatches(data: seq<seq<int>>, w: Wire, s: Net, i: nat, p: Pipe)
    requires |s.heard| == |s.links| == |data| && Matches(w, s) && i < |data| && Enabled(data, s, Reply(i))
    requires PipeCarries(p, s.links[i].(queries := s.links[i].queries[1..]))
    ensures var q := p.(toClient := p.toClient + Printed(Replies(data[i], [C.Query(s.links[i].queries[0])])));
      Matches(w.(pipes := w.pipes[i := q]), Next(data, s, Reply(i)))
  {
    hide Carries, CountLess, CountEqual;
    var l, g := s.links[i], s.links[i].queries[0];
    var answer := C.Answer(CountLess(data[i], g), CountEqual(data[i], g));
    assert [C.Query(g)][1..] == [] && Replies(data[i], [C.Query(g)]) == [answer];
    CarriesMore(C.Show, Lines(l.messages), p.atClient, p.toClient, [answer]);
    assert Lines(l.messages + [AnswerOf(data[i], g)]) == Lines(l.messages) + [answer];
  }

  lemma ServerMatches(data: seq<seq<int>>, k: int, w: Wire, s: Net, i: nat, n: nat) returns (steps: seq<Step>)
    requires GoodData(data) && Countable(data) && Inv(data, k, s) && Matches(w, s)
        && WireEnabled(data, w, ServerGets(i, n))
    ensures |steps| <= 1 && CanRun(data, s, steps)
    ensures Matches(WireNext(data, w, ServerGets(i, n)), After(data, s, steps))
  {
    hide Carries, Drain, Inv, Next, Replies;
    Shape(data, k, s);
    var p, l := w.pipes[i], s.links[i];
    assert PipeCarries(p, l);
    LinkFits(data, k, s, i);
    LinesFit(data, k, s, i);
    var lines := QueryLines(l.queries);
    var m := CarriesOn(C.ParseLine, C.Show, lines, p.atServer, p.toServer, n);
    var d := Drain(C.ParseLine, p.atServer + p.toServer[..n]);
    var q := p.(atServer := d.rest, toServer := p.toServer[n..]);
    if m == 0 {
      assert lines[..0] == [] && lines[0..] == lines;
      NoReply(data[i], q);
      steps := [];
    } else {
      assert lines[..1] == [C.Query(l.queries[0])] && lines[1..] == [] == QueryLines(l.queries[1..]);
      ReplyMatches(data, w, s, i, q);
      steps := [Reply(i)];
      assert steps[1..] == [];
    }
  }

  lemma NoReply(s: seq<int>, p: Pipe)
    ensures p.toClient + Printed(Replies(s, [])) == p.toClient
  {
  }

  lemma QueriesMatch(pipes: seq<Pipe>, links: seq<Link>, guess: int)
    requires |pipes| == |links| && forall i :: 0 <= i < |links| ==> PipeCarries(pipes[i], links[i])
    ensures |SendQueries(pipes, guess)| == |Broadcast(links, guess)| == |links|
    ensures forall i :: 0 <= i < |links| ==> PipeCarries(SendQueries(pipes, guess)[i], Broadcast(links, guess)[i])
  {
    hide Carries;
    forall i | 0 <= i < |links| ensures PipeCarries(SendQueries(pipes, guess)[i], Broadcast(links, guess)[i]) {
      var p, l := pipes[i], links[i];
      assert PipeCarries(p, l);
      CarriesMore(C.Show, QueryLines(l.queries), p.atServer, p.toServer, [C.Query(guess)]);
      assert QueryLines(l.queries + [guess]) == QueryLines(l.queries) + [C.Query(guess)];
    }
  }

  /** One message taken out of the client's buffer is the one received. */
  lemma TakeMatches(data: seq<seq<int>>, w: Wire, s: Net, i: nat, p: Pipe)
    requires |s.heard| == |s.links| == |data| && Matches(w, s) && i < |data| && Enabled(data, s, Receive(i))
    requires PipeCarries(p, s.links[i].(messages := s.links[i].messages[1..]))
    ensures Matches(Take(w.(pipes := w.pipes[i := p]), Line(s.links[i].messages[0])), Next(data, s, Receive(i)))
  {
    hide PipeCarries, OnServerState, OnAnswer;
    var pipes := w.pipes[i := p];
    var links := s.links[i := s.links[i].(messages := s.links[i].messages[1..])];
    assert forall j :: 0 <= j < |links| ==> PipeCarries(pipes[j], links[j]);
    QueriesMatch(pipes, links, Next(data, s, Receive(i)).client.guess);
  }

  lemma TakeFew(w: Wire, msgs: seq<C.Message>)
    ensures msgs == [] ==> TakeAll(w, msgs) == w
    ensures |msgs| == 1 ==> TakeAll(w, msgs) == Take(w, msgs[0])
  {
    if |msgs| == 1 {
      assert msgs[1..] == [];
    }
  }

  lemma ClientMatches(data: seq<seq<int>>, k: int, w: Wire, s: Net, i: nat, n: nat) returns (steps: seq<Step>)
    requires GoodData(data) && Countable(data) && Inv(data, k, s) && Matches(w, s)
        && WireEnabled(data, w, ClientGets(i, n))
    ensures |steps| <= 1 && CanRun(data, s, steps)
    ensures Matches(WireNext(data, w, ClientGets(i, n)), After(data, s, steps))
  {
    hide Carries, Drain, Inv, Take, Next;
    Shape(data, k, s);
    var p, l := w.pipes[i], s.links[i];
    assert PipeCarries(p, l);
    LinkFits(data, k, s, i);
    LinesFit(data, k, s, i);
    var lines := Lines(l.messages);
    var m := CarriesOn(C.ParseLine, C.Show, lines, p.atClient, p.toClient, n);
    var d := Drain(C.ParseLine, p.atClient + p.toClient[..n]);
    var q := p.(atClient := d.rest, toClient := p.toClient[n..]);
    var v := w.(pipes := w.pipes[i := q]);
    TakeFew(v, d.msgs);
    assert WireNext(data, w, ClientGets(i, n)) == TakeAll(v, d.msgs);
    if m == 0 {
      assert lines[..0] == [] && lines[0..] == lines;
      steps := [];
    } else {
      assert lines[..1] == [Line(l.messages[0])] && lines[1..] == [] == Lines(l.messages[1..]);
      TakeMatches(data, w, s, i, q);
      steps := [Receive(i)];
      assert steps[1..] == [];
    }
  }

  lemma StepMatches(data: seq<seq<int>>, k: int, w: Wire, s: Net, step: WireStep) returns (steps: seq<Step>)
    requires GoodData(data) && Countable(data) && Inv(data, k, s) && Matches(w, s) && WireEnabled(data, w, step)
    ensures |steps| <= 1 && CanRun(data, s, steps) && Matches(WireNext(data, w, step), After(data, s, steps))
  {
    match step
    case Open(i) =>
      OpenMatches(data, w, s, i);
      steps := [Connect(i)];
      assert steps[1..] == [];
    case ServerGets(i, n) => steps := ServerMatches(data, k, w, s, i, n);
    case ClientGets(i, n) => steps := ClientMatches(data, k, w, s, i, n);
  }

  /** Every run over bytes stands for a run over messages. */
  lemma {:induction false} RunMatches(data: seq<seq<int>>, k: int, w: Wire, s: Net, wireSteps: seq<WireStep>)
    returns (steps: seq<Step>)
    requires GoodData(data) && Countable(data) && Inv(data, k, s) && Matches(w, s) && WireCanRun(data, w, wireSteps)
    ensures CanRun(data, s, steps) && Matches(WireAfter(data, w, wireSteps), After(data, s, steps))
    decreases |wireSteps|
  {
    if wireSteps == [] {
      return [];
    }
    hide Inv, Matches, Next, WireNext;
    var first := StepMatches(data, k, w, s, wireSteps[0]);
    RunKeeps(data, k, s, first);
    var rest := RunMatches(data, k, WireNext(data, w, wireSteps[0]), After(data, s, first), wireSteps[1..]);
    RunThen(data, s, first, rest);
    steps := first + rest;
  }

  lemma RunThen(data: seq<seq<int>>, s: Net, first: seq<Step>, rest: seq<Step>)
    requires |first| <= 1 && CanRun(data, s, first) && CanRun(data, After(data, s, first), rest)
    ensures CanRun(data, s, first + rest) && After(data, s, first + rest) == After(data, After(data, s, first), rest)
  {
    hide Next;
    if first == [] {
      assert first + rest == rest;
    } else {
      assert first[1..] == [] && (first + rest)[1..] == rest;
    }
  }

  lemma StartMatches(n: nat, k: int)
    ensures Matches(WireInit(n, k), Init(n, k))
  {
    var w, s := WireInit(n, k), Init(n, k);
    forall i | 0 <= i < n ensures PipeCarries(w.pipes[i], s.links[i]) {
      assert QueryLines([]) == [] && Lines([]) == [];
    }
  }

  // ----- the promises, over byte streams -----

  /**
   However the bytes of the messages are cut and interleaved: no line is malformed or unexpected, the client's
   assertions hold, and what it announces is the k-th smallest element of all the servers' data.
   */
  lemma AnnouncedOverBytes(data: seq<seq<int>>, k: int, wireSteps: seq<WireStep>)
    requires GoodData(data) && Countable(data) && WireCanRun(data, WireInit(|data|, k), wireSteps)
    ensures var w := WireAfter(data, WireInit(|data|, k), wireSteps);
      && !w.failed && w.client.assertsHold
      && (w.client.found ==>
            && IsKth(Flatten(data), ClampK(k, |Flatten(data)|), w.client.guess)
            && forall t: seq<int> :: Sorted(t) && multiset(t) == multiset(Flatten(data)) ==>
                 && t != []
                 && w.client.guess
                      == if k <= 0 then t[(|t| - 1) / 2] else if k > |t| then t[|t| - 1] else t[k - 1])
  {
    StartMatches(|data|, k);
    InitKeeps(data, k);
    var steps := RunMatches(data, k, WireInit(|data|, k), Init(|data|, k), wireSteps);
    AnnouncedElementIsKth(data, k, steps);
    AssertionsNeverFail(data, k, steps);
  }

  /** When every server is connected and no byte is on its way, the element has been announced. */
  lemma SilenceMeansAnnounced(data: seq<seq<int>>, k: int, wireSteps: seq<WireStep>)
    requires GoodData(data) && Countable(data) && WireCanRun(data, WireInit(|data|, k), wireSteps)
    requires forall step :: !WireEnabled(data, WireAfter(data, WireInit(|data|, k), wireSteps), step)
    ensures WireAfter(data, WireInit(|data|, k), wireSteps).client.found
  {
    StartMatches(|data|, k);
    InitKeeps(data, k);
    var steps := RunMatches(data, k, WireInit(|data|, k), Init(|data|, k), wireSteps);
    var w, s := WireAfter(data, WireInit(|data|, k), wireSteps), After(data, Init(|data|, k), steps);
    RunKeeps(data, k, Init(|data|, k), steps);
    forall step: Step ensures !Enabled(data, s, step) {
      if step.i < |data| {
        SilentLink(data, k, w, s, step.i);
      }
    }
    StuckMeansFound(data, k, s);
  }

  lemma SilentLink(data: seq<seq<int>>, k: int, w: Wire, s: Net, i: nat)
    requires GoodData(data) && Countable(data) && Inv(data, k, s) && Matches(w, s) && i < |data|
    requires forall step :: !WireEnabled(data, w, step)
    ensures s.links[i] == Link(true, [], [])
  {
    hide Carries, Inv;
    Shape(data, k, s);
    var p, l := w.pipes[i], s.links[i];
    assert PipeCarries(p, l);
    LinesFit(data, k, s, i);
    assert !WireEnabled(data, w, Open(i));
    assert !WireEnabled(data, w, ServerGets(i, 1)) && !WireEnabled(data, w, ClientGets(i, 1));
    assert p.toServer == "" && p.toClient == "";
    NothingComing(C.ParseLine, C.Show, QueryLines(l.queries), p.atServer);
    NothingComing(C.ParseLine, C.Show, Lines(l.messages), p.atClient);
    assert |QueryLines(l.queries)| == |l.queries| && |Lines(l.messages)| == |l.messages|;
  }
}
