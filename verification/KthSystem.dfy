/**
 The k-th element client, its servers and the messages between them, in every interleaving.
 */
module KthSystem {
  import opened Common
  import opened Counting
  import opened KthClient
  import opened Sums

  /** A message to the client. An answer carries, as history, the guess it was computed for. */
  datatype Message =
    | State(sum: int, count: int, min: int, max: int)
    | Answer(guess: int, nLess: int, nEqual: int)

  /** One TCP connection: the queries and the messages in flight, oldest first. */
  datatype Link = Link(connected: bool, queries: seq<int>, messages: seq<Message>)

  /** `heard[i]` is history: server `i` has been heard in the current round of states or answers. */
  datatype Net = Net(client: Client, links: seq<Link>, heard: seq<bool>)

  datatype Step = Connect(i: nat) | Reply(i: nat) | Receive(i: nat)

  // ----- the servers' data -----

  function Flatten(data: seq<seq<int>>): seq<int> {
    if data == [] then [] else Flatten(data[..|data| - 1]) + data[|data| - 1]
  }

  function SumElems(s: seq<int>): int {
    if s == [] then 0 else SumElems(s[..|s| - 1]) + s[|s| - 1]
  }

  function MinElem(s: seq<int>): int
    requires s != []
  {
    if |s| == 1 || s[|s| - 1] < MinElem(s[..|s| - 1]) then s[|s| - 1] else MinElem(s[..|s| - 1])
  }

  function MaxElem(s: seq<int>): int
    requires s != []
  {
    if |s| == 1 || s[|s| - 1] > MaxElem(s[..|s| - 1]) then s[|s| - 1] else MaxElem(s[..|s| - 1])
  }

  lemma {:induction false} MinMaxElem(s: seq<int>)
    requires s != []
    ensures MinElem(s) in s && MaxElem(s) in s
    ensures forall x :: x in s ==> MinElem(s) <= x <= MaxElem(s)
  {
    var k := |s| - 1;
    assert s == s[..k] + [s[k]];
    if k > 0 {
      MinMaxElem(s[..k]);
    }
  }

  /** Every server holds 64-bit numbers and at least one of them, and their range is no wider than a signed word. */
  ghost predicate GoodData(data: seq<seq<int>>) {
    && data != []
    && (forall i :: 0 <= i < |data| ==> data[i] != [])
    && (forall x :: x in Flatten(data) ==> INT64_MIN <= x <= INT64_MAX)
    && (forall x, y :: x in Flatten(data) && y in Flatten(data) ==> y - x <= INT64_MAX)
  }

  // ----- the steps -----

  function Init(n: nat, k: int): Net {
    Net(InitClient(n, k), seq(n, _ => Link(false, [], [])), seq(n, _ => false))
  }

  predicate Enabled(data: seq<seq<int>>, s: Net, step: Step) {
    && |s.links| == |s.heard| == |data|
    && match step
       case Connect(i) => i < |s.links| && !s.links[i].connected && data[i] != []
       case Reply(i) => i < |s.links| && s.links[i].queries != []
       case Receive(i) => i < |s.links| && s.links[i].messages != []
  }

  function Broadcast(links: seq<Link>, guess: int): seq<Link> {
    seq(|links|, i requires 0 <= i < |links| =>
      if links[i].connected then links[i].(queries := links[i].queries + [guess]) else links[i])
  }

  function StateOf(s: seq<int>): Message
    requires s != []
  {
    State(SumElems(s), |s|, MinElem(s), MaxElem(s))
  }

  function AnswerOf(s: seq<int>, guess: int): Message {
    Answer(guess, CountLess(s, guess), CountEqual(s, guess))
  }

  function NoneHeard(n: nat): seq<bool> {
    seq(n, _ => false)
  }

  function Next(data: seq<seq<int>>, s: Net, step: Step): Net
    requires Enabled(data, s, step)
  {
    match step
    case Connect(i) =>
      s.(links := s.links[i := Link(true, s.links[i].queries, s.links[i].messages + [StateOf(data[i])])])
    case Reply(i) =>
      var l := s.links[i];
      s.(links := s.links[i := Link(l.connected, l.queries[1..], l.messages + [AnswerOf(data[i], l.queries[0])])])
    case Receive(i) =>
      var msg := s.links[i].messages[0];
      var links := s.links[i := s.links[i].(messages := s.links[i].messages[1..])];
      match msg
      case State(sum, count, min, max) =>
        var client := OnServerState(s.client, sum, count, min, max);
        if AllToldState(client)
        then Net(client, Broadcast(links, client.guess), NoneHeard(|data|))
        else Net(client, links, s.heard[i := true])
      case Answer(_, nLess, nEqual) =>
        var client := OnAnswer(s.client, nLess, nEqual);
        if AllAnswered(AddAnswer(s.client, nLess, nEqual)) && !client.found
        then Net(client, Broadcast(links, client.guess), NoneHeard(|data|))
        else Net(client, links, s.heard[i := true])
  }

  ghost predicate CanRun(data: seq<seq<int>>, s: Net, steps: seq<Step>)
    decreases |steps|
  {
    steps == [] || (Enabled(data, s, steps[0]) && CanRun(data, Next(data, s, steps[0]), steps[1..]))
  }

  ghost function After(data: seq<seq<int>>, s: Net, steps: seq<Step>): Net
    requires CanRun(data, s, steps)
    decreases |steps|
  {
    if steps == [] then s else After(data, Next(data, s, steps[0]), steps[1..])
  }

  // ----- what has been added up so far -----

  /** The total of a measure over the data of the servers already heard. */
  ghost function Heard(w: seq<int> -> int, data: seq<seq<int>>, heard: seq<bool>): int
    requires |heard| == |data|
  {
    if data == [] then 0
    else
      var k := |data| - 1;
      Heard(w, data[..k], heard[..k]) + if heard[k] then w(data[k]) else 0
  }

  function One(): seq<int> -> int {
    (s: seq<int>) => 1
  }

  function Size(): seq<int> -> int {
    (s: seq<int>) => |s|
  }

  function Sum(): seq<int> -> int {
    (s: seq<int>) => SumElems(s)
  }

  function Less(v: int): seq<int> -> int {
    (s: seq<int>) => CountLess(s, v)
  }

  function Equal(v: int): seq<int> -> int {
    (s: seq<int>) => CountEqual(s, v)
  }

  lemma {:induction false} HearOne(w: seq<int> -> int, data: seq<seq<int>>, heard: seq<bool>, i: nat)
    requires |heard| == |data| && i < |data| && !heard[i]
    ensures Heard(w, data, heard[i := true]) == Heard(w, data, heard) + w(data[i])
  {
    var k := |data| - 1;
    if i == k {
      assert heard[i := true][..k] == heard[..k];
    } else {
      HearOne(w, data[..k], heard[..k], i);
      assert heard[i := true][..k] == heard[..k][i := true];
    }
  }

  lemma {:induction false} HearNone(w: seq<int> -> int, data: seq<seq<int>>, heard: seq<bool>)
    requires |heard| == |data| && forall i :: 0 <= i < |heard| ==> !heard[i]
    ensures Heard(w, data, heard) == 0
  {
    if data != [] {
      HearNone(w, data[..|data| - 1], heard[..|data| - 1]);
    }
  }

  lemma {:induction false} HeardCount(data: seq<seq<int>>, heard: seq<bool>)
    requires |heard| == |data|
    ensures 0 <= Heard(One(), data, heard) <= |data|
    ensures Heard(One(), data, heard) == |data| <==> forall i :: 0 <= i < |data| ==> heard[i]
  {
    if data != [] {
      var k := |data| - 1;
      HeardCount(data[..k], heard[..k]);
      assert (forall i :: 0 <= i < |data| ==> heard[i]) <==> heard[k] && forall i :: 0 <= i < k ==> heard[..k][i];
    }
  }

  lemma {:induction false} SumElemsConcat(s: seq<int>, t: seq<int>)
    ensures SumElems(s + t) == SumElems(s) + SumElems(t)
  {
    if t == [] {
      assert s + t == s;
    } else {
      SumElemsConcat(s, t[..|t| - 1]);
      assert (s + t)[..|s + t| - 1] == s + t[..|t| - 1];
    }
  }

  lemma {:induction false} HeardAll(data: seq<seq<int>>, heard: seq<bool>, v: int)
    requires |heard| == |data| && forall i :: 0 <= i < |heard| ==> heard[i]
    ensures Heard(Size(), data, heard) == |Flatten(data)|
    ensures Heard(Sum(), data, heard) == SumElems(Flatten(data))
    ensures Heard(Less(v), data, heard) == CountLess(Flatten(data), v)
    ensures Heard(Equal(v), data, heard) == CountEqual(Flatten(data), v)
  {
    if data != [] {
      var k := |data| - 1;
      HeardAll(data[..k], heard[..k], v);
      SumElemsConcat(Flatten(data[..k]), data[k]);
      CountLessConcat(Flatten(data[..k]), data[k], v);
      CountLessConcat(Flatten(data[..k]), data[k], v + 1);
      CountNext(Flatten(data), v);
      CountNext(Flatten(data[..k]), v);
      CountNext(data[k], v);
    }
  }

  /** The minimum the client has merged: the least of the servers heard, or the initial one. */
  ghost predicate MinMax(data: seq<seq<int>>, heard: seq<bool>, min: int, max: int)
    requires |heard| == |data| && forall i :: 0 <= i < |data| ==> data[i] != []
  {
    && (forall i :: 0 <= i < |data| && heard[i] ==> min <= MinElem(data[i]) && MaxElem(data[i]) <= max)
    && ((forall i :: 0 <= i < |data| ==> !heard[i]) || (min in Flatten(data) && max in Flatten(data)))
    && ((exists i :: 0 <= i < |data| && heard[i]) || (min == INT64_MAX && max == INT64_MIN))
  }

  lemma {:induction false} InFlatten(data: seq<seq<int>>, i: nat)
    requires i < |data|
    ensures forall x :: x in data[i] ==> x in Flatten(data)
  {
    var k := |data| - 1;
    if i < k {
      InFlatten(data[..k], i);
    }
  }

  lemma {:induction false} FlattenWithin(data: seq<seq<int>>, min: int, max: int)
    requires forall i :: 0 <= i < |data| ==> forall x :: x in data[i] ==> min <= x <= max
    ensures forall x :: x in Flatten(data) ==> min <= x <= max
  {
    if data != [] {
      var k := |data| - 1;
      FlattenWithin(data[..k], min, max);
      assert forall x :: x in data[k] ==> min <= x <= max;
    }
  }

  // ----- the invariant of the protocol -----

  /** A server whose state has not been heard is not connected, or its state is in flight. */
  ghost predicate StateLink(s: seq<int>, link: Link, heard: bool)
    requires s != []
  {
    if heard then link == Link(true, [], [])
    else link == Link(false, [], []) || link == Link(true, [], [StateOf(s)])
  }

  /**
   In a round, every server has the current guess to count, or its answer to that guess is in flight, or it is
   heard.
   */
  ghost predicate RoundLink(s: seq<int>, link: Link, heard: bool, guess: int) {
    if heard then link == Link(true, [], [])
    else link == Link(true, [guess], []) || link == Link(true, [], [AnswerOf(s, guess)])
  }

  ghost predicate Gathering(data: seq<seq<int>>, k: int, s: Net)
    requires GoodData(data) && |s.links| == |s.heard| == |data|
  {
    && s.client.nServerState < |data|
    && s.client.nServerState == Heard(One(), data, s.heard)
    && s.client.totalCount == Heard(Size(), data, s.heard)
    && s.client.sum == Heard(Sum(), data, s.heard)
    && s.client.kth == k
    && !s.client.found && s.client.assertsHold
    && s.client.nLess == s.client.nEqual == s.client.nAnswered == s.client.nIteration == 0
    && MinMax(data, s.heard, s.client.min, s.client.max)
    && forall i :: 0 <= i < |data| ==> StateLink(data[i], s.links[i], s.heard[i])
  }

  /** The states of all servers have been merged. */
  ghost predicate Told(data: seq<seq<int>>, c: Client) {
    && c.totalCount == |Flatten(data)| && c.sum == SumElems(Flatten(data))
    && c.min in Flatten(data) && c.max in Flatten(data)
    && forall x :: x in Flatten(data) ==> c.min <= x <= c.max
  }

  ghost predicate Rounds(data: seq<seq<int>>, k: int, s: Net)
    requires GoodData(data) && |s.links| == |s.heard| == |data|
  {
    && s.client.nServerState == |data|
    && s.client.kth == ClampK(k, |Flatten(data)|)
    && Searching(Flatten(data), s.client)
    && s.client.nAnswered < |data|
    && s.client.nAnswered == Heard(One(), data, s.heard)
    && s.client.nLess == Heard(Less(s.client.guess), data, s.heard)
    && s.client.nEqual == Heard(Equal(s.client.guess), data, s.heard)
    && Told(data, s.client)
    && s.client.min <= s.client.low && s.client.high <= s.client.max
    && forall i :: 0 <= i < |data| ==> RoundLink(data[i], s.links[i], s.heard[i], s.client.guess)
  }

  ghost predicate Announced(data: seq<seq<int>>, k: int, s: Net)
    requires GoodData(data) && |s.links| == |s.heard| == |data|
  {
    && s.client.found && s.client.assertsHold && s.client.nIteration <= 64
    && Told(data, s.client) && s.client.nServerState == |data|
    && s.client.low <= s.client.guess <= s.client.high
    && s.client.kth == ClampK(k, |Flatten(data)|)
    && IsKth(Flatten(data), s.client.kth, s.client.guess)
    && forall i :: 0 <= i < |data| ==> s.links[i] == Link(true, [], [])
  }

  ghost predicate Inv(data: seq<seq<int>>, k: int, s: Net)
    requires GoodData(data)
  {
    && |s.links| == |s.heard| == |data| == s.client.servers
    && (Gathering(data, k, s) || Rounds(data, k, s) || Announced(data, k, s))
  }

  lemma InitKeeps(data: seq<seq<int>>, k: int)
    requires GoodData(data)
    ensures Inv(data, k, Init(|data|, k))
  {
    var s := Init(|data|, k);
    HearNone(One(), data, s.heard);
    HearNone(Size(), data, s.heard);
    HearNone(Sum(), data, s.heard);
  }

  lemma MergeKeeps(data: seq<seq<int>>, heard: seq<bool>, min: int, max: int, i: nat)
    requires GoodData(data) && |heard| == |data| && i < |data| && MinMax(data, heard, min, max)
    ensures var smin, smax := MinElem(data[i]), MaxElem(data[i]);
      MinMax(data, heard[i := true], if min > smin then smin else min, if max < smax then smax else max)
  {
    MinMaxElem(data[i]);
    InFlatten(data, i);
    assert heard[i := true][i];
    if forall j :: 0 <= j < |data| ==> !heard[j] {
      assert min == INT64_MAX && max == INT64_MIN;
    }
  }

  /** Once every server is heard the merged minimum and maximum bound all the data. */
  lemma AllWithin(data: seq<seq<int>>, heard: seq<bool>, min: int, max: int)
    requires GoodData(data) && |heard| == |data| && MinMax(data, heard, min, max)
    requires forall i :: 0 <= i < |data| ==> heard[i]
    ensures min in Flatten(data) && max in Flatten(data)
    ensures forall x :: x in Flatten(data) ==> min <= x <= max
  {
    assert heard[0];
    forall i | 0 <= i < |data|
      ensures forall x :: x in data[i] ==> min <= x <= max
    {
      MinMaxElem(data[i]);
    }
    FlattenWithin(data, min, max);
  }

  lemma StartKeeps(data: seq<seq<int>>, c: Client, heard: seq<bool>)
    requires GoodData(data) && |heard| == |data|
    requires forall i :: 0 <= i < |data| ==> heard[i]
    requires MinMax(data, heard, c.min, c.max)
    requires c.totalCount == Heard(Size(), data, heard) && c.sum == Heard(Sum(), data, heard)
    requires !c.found && c.assertsHold && c.nIteration == 0
    ensures var d := StartSearch(c);
      && Searching(Flatten(data), d)
      && d.kth == ClampK(c.kth, |Flatten(data)|)
      && Told(data, d)
  {
    hide Heard, CountLess, CountEqual, Flatten, FirstGuess, Pow2;
    var all := Flatten(data);
    var d := StartSearch(c);
    AllWithin(data, heard, c.min, c.max);
    HeardAll(data, heard, 0);
    assert forall i :: 0 <= i < |all| ==> all[i] in all;
    CountNone(all, d.low);
    CountAll(all, d.high + 1);
    FirstGuessIsMiddle(c.min, c.max);
    Pow2Of63();
    assert |all| > 0;
  }

  lemma ReceiveStateKeeps(data: seq<seq<int>>, k: int, s: Net, i: nat)
    requires GoodData(data) && Inv(data, k, s) && Gathering(data, k, s) && Enabled(data, s, Receive(i))
    ensures Inv(data, k, Next(data, s, Receive(i)))
  {
    hide Heard, FirstGuess, CountLess, CountEqual, Flatten, MinElem, MaxElem;
    var t := Next(data, s, Receive(i));
    assert StateLink(data[i], s.links[i], s.heard[i]);
    var heard := s.heard[i := true];
    HearOne(One(), data, s.heard, i);
    HearOne(Size(), data, s.heard, i);
    HearOne(Sum(), data, s.heard, i);
    MergeKeeps(data, s.heard, s.client.min, s.client.max, i);
    HeardCount(data, heard);
    if t.client.nServerState == |data| {
      var merged := Merge(s.client, SumElems(data[i]), |data[i]|, MinElem(data[i]), MaxElem(data[i]));
      StartKeeps(data, merged, heard);
      forall j | 0 <= j < |data| && j != i ensures s.links[j] == Link(true, [], []) {
        assert heard[j] && StateLink(data[j], s.links[j], s.heard[j]);
      }
      NewRound(data, s.links, i, heard, t.client.guess);
    }
  }

  /** When the last server has been heard, the broadcast leaves exactly one query on every connection. */
  lemma NewRound(data: seq<seq<int>>, links: seq<Link>, i: nat, heard: seq<bool>, guess: int)
    requires data != [] && |links| == |heard| == |data| && i < |data|
    requires forall j :: 0 <= j < |data| ==> heard[j]
    requires links[i].connected && links[i].queries == [] && |links[i].messages| == 1
    requires forall j :: 0 <= j < |data| && j != i ==> links[j] == Link(true, [], [])
    ensures var after := Broadcast(links[i := links[i].(messages := links[i].messages[1..])], guess);
      && |after| == |data|
      && (forall j :: 0 <= j < |data| ==> RoundLink(data[j], after[j], false, guess))
    ensures Heard(One(), data, NoneHeard(|data|)) == 0
    ensures Heard(Less(guess), data, NoneHeard(|data|)) == 0
    ensures Heard(Equal(guess), data, NoneHeard(|data|)) == 0
  {
    HearNone(One(), data, NoneHeard(|data|));
    HearNone(Less(guess), data, NoneHeard(|data|));
    HearNone(Equal(guess), data, NoneHeard(|data|));
  }

  lemma ReceiveAnswerKeeps(data: seq<seq<int>>, k: int, s: Net, i: nat)
    requires GoodData(data) && Inv(data, k, s) && Rounds(data, k, s) && Enabled(data, s, Receive(i))
    ensures Inv(data, k, Next(data, s, Receive(i)))
  {
    hide Heard, CountLess, CountEqual, Flatten, EndRound;
    var t := Next(data, s, Receive(i));
    var g := s.client.guess;
    assert RoundLink(data[i], s.links[i], s.heard[i], g);
    var heard := s.heard[i := true];
    HearOne(One(), data, s.heard, i);
    HearOne(Less(g), data, s.heard, i);
    HearOne(Equal(g), data, s.heard, i);
    HeardCount(data, heard);
    var added := AddAnswer(s.client, CountLess(data[i], g), CountEqual(data[i], g));
    if AllAnswered(added) {
      HeardAll(data, heard, g);
      RoundKeeps(Flatten(data), added);
      EndRoundFrame(added);
      forall j | 0 <= j < |data| && j != i
        ensures s.links[j] == Link(true, [], [])
      {
        assert heard[j] && RoundLink(data[j], s.links[j], s.heard[j], g);
      }
      NewRound(data, s.links, i, heard, t.client.guess);
    }
  }

  lemma EndRoundFrame(c: Client)
    ensures var d := EndRound(c);
      && d.kth == c.kth && d.servers == c.servers && d.nServerState == c.nServerState
      && d.min == c.min && d.max == c.max && d.sum == c.sum && d.totalCount == c.totalCount
      && (!d.found ==> d.nLess == d.nEqual == d.nAnswered == 0)
  {
  }

  lemma SendKeeps(data: seq<seq<int>>, k: int, s: Net, step: Step)
    requires GoodData(data) && Inv(data, k, s) && Enabled(data, s, step) && !step.Receive?
    ensures Inv(data, k, Next(data, s, step))
  {
    hide Heard, FirstGuess, CountLess, CountEqual, Flatten, MinElem, MaxElem;
    if Gathering(data, k, s) {
      assert StateLink(data[step.i], s.links[step.i], s.heard[step.i]);
      assert Gathering(data, k, Next(data, s, step));
    } else if Rounds(data, k, s) {
      assert RoundLink(data[step.i], s.links[step.i], s.heard[step.i], s.client.guess);
      assert Rounds(data, k, Next(data, s, step));
    }
  }

  lemma StepKeeps(data: seq<seq<int>>, k: int, s: Net, step: Step)
    requires GoodData(data) && Inv(data, k, s) && Enabled(data, s, step)
    ensures Inv(data, k, Next(data, s, step))
  {
    if !step.Receive? {
      SendKeeps(data, k, s, step);
    } else if Gathering(data, k, s) {
      ReceiveStateKeeps(data, k, s, step.i);
    } else if Rounds(data, k, s) {
      ReceiveAnswerKeeps(data, k, s, step.i);
    }
  }

  lemma {:induction false} RunKeeps(data: seq<seq<int>>, k: int, s: Net, steps: seq<Step>)
    requires GoodData(data) && Inv(data, k, s) && CanRun(data, s, steps)
    ensures Inv(data, k, After(data, s, steps))
    decreases |steps|
  {
    if steps != [] {
      StepKeeps(data, k, s, steps[0]);
      RunKeeps(data, k, Next(data, s, steps[0]), steps[1..]);
    }
  }

  // ----- the promises -----

  /** Once all servers have told, the client knows the sum, the count and the range of all their data. */
  lemma StatesAreMerged(data: seq<seq<int>>, k: int, steps: seq<Step>)
    requires GoodData(data) && CanRun(data, Init(|data|, k), steps)
    ensures var c := After(data, Init(|data|, k), steps).client;
      c.nServerState == |data| ==>
        && c.totalCount == |Flatten(data)| && c.sum == SumElems(Flatten(data))
        && c.min in Flatten(data) && c.max in Flatten(data)
        && forall x :: x in Flatten(data) ==> c.min <= x <= c.max
  {
    InitKeeps(data, k);
    RunKeeps(data, k, Init(|data|, k), steps);
  }

  /** What is announced, in terms of the numbers in order: the median for no `k`, the last for one too large. */
  lemma KthInOrder(all: seq<int>, t: seq<int>, k: int, v: int)
    requires all != [] && Sorted(t) && multiset(t) == multiset(all) && IsKth(all, ClampK(k, |all|), v)
    ensures |t| == |all|
    ensures v == if k <= 0 then t[(|t| - 1) / 2] else if k > |t| then t[|t| - 1] else t[k - 1]
  {
    assert |multiset(t)| == |t| && |multiset(all)| == |all|;
    KthBySorting(all, t, ClampK(k, |all|), v);
  }

  /** Whatever the interleaving, an announced result is the k-th smallest element of all the servers' data. */
  lemma AnnouncedElementIsKth(data: seq<seq<int>>, k: int, steps: seq<Step>)
    requires GoodData(data) && CanRun(data, Init(|data|, k), steps)
    ensures var s := After(data, Init(|data|, k), steps);
      s.client.found ==>
        && IsKth(Flatten(data), ClampK(k, |Flatten(data)|), s.client.guess)
        && forall t: seq<int> :: Sorted(t) && multiset(t) == multiset(Flatten(data)) ==>
             && t != []
             && s.client.guess
                  == if k <= 0 then t[(|t| - 1) / 2] else if k > |t| then t[|t| - 1] else t[k - 1]
  {
    InitKeeps(data, k);
    RunKeeps(data, k, Init(|data|, k), steps);
    var s := After(data, Init(|data|, k), steps);
    if s.client.found {
      NotEmpty(data);
      forall t: seq<int> | Sorted(t) && multiset(t) == multiset(Flatten(data))
        ensures t != []
        ensures s.client.guess == if k <= 0 then t[(|t| - 1) / 2] else if k > |t| then t[|t| - 1] else t[k - 1]
      {
        KthInOrder(Flatten(data), t, k, s.client.guess);
      }
    }
  }

  lemma NotEmpty(data: seq<seq<int>>)
    requires GoodData(data)
    ensures Flatten(data) != []
  {
    InFlatten(data, 0);
    assert data[0] != [] && data[0][0] in data[0];
  }

  /** Both assertions of the client hold in every run: at most 64 rounds, and a non-empty interval after each. */
  lemma AssertionsNeverFail(data: seq<seq<int>>, k: int, steps: seq<Step>)
    requires GoodData(data) && CanRun(data, Init(|data|, k), steps)
    ensures var s := After(data, Init(|data|, k), steps);
      && s.client.assertsHold && s.client.nIteration <= 64
      && (s.client.nServerState == |data| ==> s.client.low <= s.client.guess <= s.client.high)
  {
    var s := After(data, Init(|data|, k), steps);
    InitKeeps(data, k);
    RunKeeps(data, k, Init(|data|, k), steps);
    if Rounds(data, k, s) {
      Bracket(Flatten(data), s.client.kth, s.client.low, s.client.high);
    }
  }

  /** Every query and every answer in flight belongs to the current guess. */
  lemma InFlightIsCurrent(data: seq<seq<int>>, k: int, steps: seq<Step>, i: nat)
    requires GoodData(data) && CanRun(data, Init(|data|, k), steps) && i < |data|
    ensures var s := After(data, Init(|data|, k), steps);
      && i < |s.links|
      && (forall g :: g in s.links[i].queries ==> g == s.client.guess)
      && (forall m :: m in s.links[i].messages && m.Answer? ==> m == AnswerOf(data[i], s.client.guess))
  {
    var s := After(data, Init(|data|, k), steps);
    InitKeeps(data, k);
    RunKeeps(data, k, Init(|data|, k), steps);
    if Gathering(data, k, s) {
      assert StateLink(data[i], s.links[i], s.heard[i]);
    } else if Rounds(data, k, s) {
      assert RoundLink(data[i], s.links[i], s.heard[i], s.client.guess);
    }
  }

  /** No 64-bit operation of the search overflows: bounds and guess never leave the range of the data. */
  lemma SearchStaysInRange(data: seq<seq<int>>, k: int, steps: seq<Step>)
    requires GoodData(data) && CanRun(data, Init(|data|, k), steps)
    ensures var c := After(data, Init(|data|, k), steps).client;
      c.nServerState == |data| && !c.found ==>
        && INT64_MIN <= c.low <= c.guess <= c.high <= INT64_MAX
        && c.high - c.low <= INT64_MAX
  {
    var s := After(data, Init(|data|, k), steps);
    InitKeeps(data, k);
    RunKeeps(data, k, Init(|data|, k), steps);
    if Rounds(data, k, s) {
      Bracket(Flatten(data), s.client.kth, s.client.low, s.client.high);
    }
  }

  // ----- every run ends -----

  function Cost(): Link -> int {
    (l: Link) => if !l.connected then 2 else 2 * |l.queries| + |l.messages|
  }

  /** A query and an answer for each of `n` servers, in each of so many rounds. */
  function Messages(n: int, rounds: int): int {
    2 * n * rounds
  }

  lemma MoreRounds(n: nat, rounds: int)
    ensures Messages(n, rounds + 1) == Messages(n, rounds) + 2 * n
    ensures rounds >= 0 ==> Messages(n, rounds) >= 0
  {
    assert n * (rounds + 1) == n * rounds + n;
    assert rounds >= 0 ==> n * rounds >= 0;
  }

  /** Messages still to be handled in this round, and in the rounds that can follow it. */
  ghost function Todo(s: Net): int {
    var n := |s.links|;
    SumOf(Cost(), s.links) +
    if s.client.found then 0
    else if s.client.nServerState < n then Messages(n, 64)
    else Messages(n, 63 - s.client.nIteration)
  }

  lemma {:induction false} CostOfBroadcast(links: seq<Link>, guess: int)
    requires forall i :: 0 <= i < |links| ==> links[i] == Link(true, [], [])
    ensures SumOf(Cost(), links) == 0
    ensures SumOf(Cost(), Broadcast(links, guess)) == 2 * |links|
  {
    if links != [] {
      var k := |links| - 1;
      CostOfBroadcast(links[..k], guess);
      assert Broadcast(links, guess)[..k] == Broadcast(links[..k], guess);
    }
  }

  lemma StepMakesProgress(data: seq<seq<int>>, k: int, s: Net, step: Step)
    requires GoodData(data) && Inv(data, k, s) && Enabled(data, s, step)
    ensures 0 <= Todo(Next(data, s, step)) < Todo(s)
  {
    hide SumOf, Heard, FirstGuess, CountLess, CountEqual, Flatten, MinElem, MaxElem, Searching;
    var t := Next(data, s, step);
    var i := step.i;
    StepKeeps(data, k, s, step);
    NonNegative(data, k, t);
    if Gathering(data, k, s) {
      assert StateLink(data[i], s.links[i], s.heard[i]);
      GatheringProgress(data, k, s, step);
    } else if Rounds(data, k, s) {
      assert RoundLink(data[i], s.links[i], s.heard[i], s.client.guess);
      RoundsProgress(data, k, s, step);
    }
  }

  lemma NonNegative(data: seq<seq<int>>, k: int, s: Net)
    requires GoodData(data) && Inv(data, k, s)
    ensures Todo(s) >= 0
  {
    hide SumOf, Messages, Flatten, Heard, CountLess, CountEqual;
    SumNonNegative(Cost(), s.links);
    MoreRounds(|s.links|, 64);
    if Rounds(data, k, s) {
      MoreRounds(|s.links|, 63 - s.client.nIteration);
    }
  }

  lemma OneMessage(m: Message)
    ensures [m][1..] == []
  {
  }

  lemma GatheringProgress(data: seq<seq<int>>, k: int, s: Net, step: Step)
    requires GoodData(data) && Inv(data, k, s) && Gathering(data, k, s) && Enabled(data, s, step)
    ensures Todo(Next(data, s, step)) < Todo(s)
  {
    hide SumOf, Heard, FirstGuess, CountLess, CountEqual, Flatten, MinElem, MaxElem, Messages;
    MoreRounds(|data|, 63);
    var i := step.i;
    var t := Next(data, s, step);
    assert StateLink(data[i], s.links[i], s.heard[i]);
    var heard := s.heard[i := true];
    HearOne(One(), data, s.heard, i);
    HeardCount(data, heard);
    match step {
      case Connect(_) =>
        SumUpdate(Cost(), s.links, i, t.links[i]);
      case Receive(_) =>
        var links := s.links[i := Link(true, [], [])];
        SumUpdate(Cost(), s.links, i, Link(true, [], []));
        OneMessage(StateOf(data[i]));
        if t.client.nServerState == |data| {
          forall j | 0 <= j < |data|
            ensures links[j] == Link(true, [], [])
          {
            assert heard[j] && StateLink(data[j], s.links[j], s.heard[j]);
          }
          CostOfBroadcast(links, t.client.guess);
        }
    }
  }

  lemma RoundsProgress(data: seq<seq<int>>, k: int, s: Net, step: Step)
    requires GoodData(data) && Inv(data, k, s) && Rounds(data, k, s) && Enabled(data, s, step)
    ensures Todo(Next(data, s, step)) < Todo(s)
  {
    hide SumOf, Heard, FirstGuess, CountLess, CountEqual, Flatten, Messages;
    var i := step.i;
    var t := Next(data, s, step);
    assert RoundLink(data[i], s.links[i], s.heard[i], s.client.guess);
    match step {
      case Reply(_) =>
        SumUpdate(Cost(), s.links, i, t.links[i]);
      case Receive(_) =>
        SumUpdate(Cost(), s.links, i, Link(true, [], []));
        OneMessage(AnswerOf(data[i], s.client.guess));
        if s.client.nAnswered + 1 == |data| {
          var links := s.links[i := Link(true, [], [])];
          LastAnswer(data, k, s, i, links);
          CostOfBroadcast(links, t.client.guess);
          MoreRounds(|data|, 62 - s.client.nIteration);
          MoreRounds(|data|, 63 - s.client.nIteration);
        }
    }
  }

  /** The last answer of a round leaves every connection empty. */
  lemma LastAnswer(data: seq<seq<int>>, k: int, s: Net, i: nat, links: seq<Link>)
    requires GoodData(data) && Inv(data, k, s) && Rounds(data, k, s) && Enabled(data, s, Receive(i))
    requires s.client.nAnswered + 1 == |data| && links == s.links[i := Link(true, [], [])]
    ensures forall j :: 0 <= j < |data| ==> links[j] == Link(true, [], [])
  {
    hide Heard, CountLess, CountEqual, Flatten;
    var heard := s.heard[i := true];
    assert RoundLink(data[i], s.links[i], s.heard[i], s.client.guess);
    HearOne(One(), data, s.heard, i);
    HeardCount(data, heard);
    forall j | 0 <= j < |data| ensures links[j] == Link(true, [], []) {
      assert heard[j] && RoundLink(data[j], s.links[j], s.heard[j], s.client.guess);
    }
  }

  lemma {:induction false} RunEnds(data: seq<seq<int>>, k: int, s: Net, steps: seq<Step>)
    requires GoodData(data) && Inv(data, k, s) && CanRun(data, s, steps)
    ensures |steps| + Todo(After(data, s, steps)) <= Todo(s)
    decreases |steps|
  {
    if steps != [] {
      StepMakesProgress(data, k, s, steps[0]);
      StepKeeps(data, k, s, steps[0]);
      RunEnds(data, k, Next(data, s, steps[0]), steps[1..]);
    }
  }

  lemma {:induction false} InitialCost(n: nat)
    ensures SumOf(Cost(), seq(n, _ => Link(false, [], []))) == 2 * n
  {
    if n > 0 {
      InitialCost(n - 1);
      assert seq(n, _ => Link(false, [], []))[..n - 1] == seq(n - 1, _ => Link(false, [], []));
    }
  }

  /** With `n` servers no run has more than `130 n` steps, and one that can go no further has announced the element. */
  lemma RunsAnnounce(data: seq<seq<int>>, k: int, steps: seq<Step>)
    requires GoodData(data) && CanRun(data, Init(|data|, k), steps)
    ensures |steps| <= 130 * |data|
    ensures var s := After(data, Init(|data|, k), steps);
      (forall step :: !Enabled(data, s, step)) ==> s.client.found
  {
    var s := After(data, Init(|data|, k), steps);
    InitKeeps(data, k);
    InitialCost(|data|);
    RunKeeps(data, k, Init(|data|, k), steps);
    RunEnds(data, k, Init(|data|, k), steps);
    NonNegative(data, k, s);
    if forall step :: !Enabled(data, s, step) {
      StuckMeansFound(data, k, s);
    }
  }

  lemma StuckMeansFound(data: seq<seq<int>>, k: int, s: Net)
    requires GoodData(data) && Inv(data, k, s) && forall step :: !Enabled(data, s, step)
    ensures s.client.found
  {
    HeardCount(data, s.heard);
    forall i | 0 <= i < |data|
      ensures s.client.found || s.heard[i]
    {
      assert !Enabled(data, s, Connect(i)) && !Enabled(data, s, Reply(i)) && !Enabled(data, s, Receive(i));
      if Gathering(data, k, s) {
        assert StateLink(data[i], s.links[i], s.heard[i]);
      } else if Rounds(data, k, s) {
        assert RoundLink(data[i], s.links[i], s.heard[i], s.client.guess);
      }
    }
  }
}
