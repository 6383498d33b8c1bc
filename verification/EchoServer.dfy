/**
 The echo server's back-pressure: what it receives it sends back, it stops reading at the high-water mark
 and starts again when everything is written. One turn of the event loop is one step here.
 */
module EchoServer {
  import opened Common
  import opened TcpConnection
  import B = Buffer

  /** The connection, the sizes of its input buffer, and, as history, everything echoed so far. */
  datatype Echo = Echo(conn: Conn, input: B.Window, received: string)

  datatype ReadEvent = NoRead | ReadError(errno: int) | EndOfFile | Bytes(data: string, res: WriteResult)

  /**
   What one turn of the loop brings: a timeout handled before or after the connection's own events, a hang-up,
   a read, a writable socket.
   */
  datatype Turn = Turn(timeoutFirst: bool, hangUp: bool, read: ReadEvent, write: Option<WriteResult>, timeoutLast: bool)

  function Start(mark: nat): Echo {
    Echo(Established(Some(mark), true), B.Window(B.CHEAP_PREPEND + 1024, B.CHEAP_PREPEND, B.CHEAP_PREPEND), "")
  }

  // ----- the callbacks -----

  /** `onMessage`: `send` takes the whole input buffer while the connection is open, and nothing afterwards. */
  function OnMessage(e: Echo, data: string, res: WriteResult): Echo
    requires e.input.Valid() && Possible(res, |data|)
  {
    var filled := B.WindowAfterRead(e.input, |data|);
    if e.conn.state != Connected then e.(input := filled)
    else Echo(Send(e.conn, data, res), B.Window(filled.size, B.CHEAP_PREPEND, B.CHEAP_PREPEND), e.received + data)
  }

  /** `onHighWaterMark`. */
  function OnHighWaterMark(c: Conn): Conn {
    StopRead(c)
  }

  /** `onWriteComplete`. */
  function OnWriteComplete(c: Conn): Conn {
    if !c.reading then StartRead(c) else c
  }

  function RunCallback(c: Conn, t: Task): Conn {
    match t
    case WriteComplete => OnWriteComplete(c)
    case HighWater(_) => OnHighWaterMark(c)
    case ForceClosed => ForceCloseInLoop(c)
    case HalfCloseLater => ShutdownInLoop(c)
    case SendLater(_) => c
  }

  function RunCallbacks(c: Conn, tasks: seq<Task>): Conn
    decreases |tasks|
  {
    if tasks == [] then c else RunCallbacks(RunCallback(c, tasks[0]), tasks[1..])
  }

  /** The server object; `now` is the clock and `connections` holds when each connection expires. */
  class EchoServer {
    const timeout: nat
    var connections: map<TcpConnection, int>

    constructor (timeout: nat)
      ensures this.timeout == timeout && connections == map[]
    {
      this.timeout, connections := timeout, map[];
    }

    /** The server is told that the connection is up, or down. */
    method Connection(conn: TcpConnection, now: int)
      requires conn.Valid()
      modifies this, conn
      ensures conn.Valid() && var c := old(conn.State());
        conn.State() == c.(mark := if c.state == Connected then Some(1024) else c.mark)
      ensures connections ==
        if conn.state == Connected then old(connections)[conn := now + timeout] else old(connections) - {conn}
    {
      if conn.state == Connected {
        conn.highWaterMark := Some(1024);
        connections := connections[conn := now + timeout];
      } else {
        connections := connections - {conn};
      }
    }

    method Message(conn: TcpConnection, input: B.Buffer, res: WriteResult, now: int)
      requires conn.Valid() && input.Valid() && input != conn.outputBuffer && input.buffer != conn.outputBuffer.buffer
      requires Possible(res, |input.Contents()|)
      modifies this, conn, conn.outputBuffer, conn.outputBuffer.buffer, input`readerIndex, input`writerIndex
      ensures conn.Valid() && conn.State() == Send(old(conn.State()), old(input.Contents()), res)
      ensures input.Valid() && input.Contents() == if old(conn.state) == Connected then "" else old(input.Contents())
      ensures connections == old(connections)[conn := now + timeout]
    {
      hide Send;
      conn.SendBuffer(input, res, true);
      connections := connections[conn := now + timeout];
    }

    method HighWaterMark(conn: TcpConnection, now: int)
      requires conn.Valid()
      modifies this, conn
      ensures conn.Valid() && conn.State() == OnHighWaterMark(old(conn.State()))
      ensures connections == old(connections)[conn := now + 2 * timeout]
    {
      conn.SetReading(false);
      connections := connections[conn := now + 2 * timeout];
    }

    method WriteCompleted(conn: TcpConnection, now: int)
      requires conn.Valid()
      modifies this, conn
      ensures conn.Valid() && conn.State() == OnWriteComplete(old(conn.State()))
      ensures connections == if old(conn.reading) then old(connections) else old(connections)[conn := now + timeout]
    {
      if !conn.reading {
        conn.SetReading(true);
        connections := connections[conn := now + timeout];
      }
    }

    /** The periodic scan: exactly the connections expired when the clock is read for them are closed and forgotten. */
    method Timeout(clock: map<TcpConnection, int>)
      requires connections.Keys <= clock.Keys && forall c :: c in connections ==> c.Valid()
      modifies this, connections.Keys
      ensures connections == map c | c in old(connections) && old(connections)[c] > clock[c] :: old(connections)[c]
      ensures forall c :: c in old(connections) ==>
        c.Valid() && c.State() == if old(connections)[c] <= clock[c] then ForceClose(old(c.State())) else old(c.State())
    {
      hide ForceClose, TcpConnection.State;
      var expired := set c | c in connections && connections[c] <= clock[c];
      CloseAll(expired);
      connections := connections - expired;
    }

    static method CloseAll(expired: set<TcpConnection>)
      requires forall c :: c in expired ==> c.Valid()
      modifies expired
      decreases expired
      ensures forall c :: c in expired ==> c.Valid() && c.State() == ForceClose(old(c.State()))
    {
      hide ForceClose, TcpConnection.State;
      if expired != {} {
        var c :| c in expired;
        c.DoForceClose();
        CloseAll(expired - {c});
      }
    }
  }

  // ----- one turn of the loop -----

  /** Only events of a registered channel are reported, and one read takes no more than `readFd` offers. */
  predicate Possibly(e: Echo, t: Turn) {
    && e.input.Valid()
    && (t.read != NoRead ==> e.conn.reading)
    && (t.write.Some? ==> e.conn.writing)
    && (t.hangUp ==> e.conn.registered && t.read == NoRead)
    && (t.read.Bytes? ==> 0 < |t.read.data| <= B.ReadLimit(e.input) && Possible(t.read.res, |t.read.data|))
  }

  function AfterTimeout(e: Echo, timeout: bool): Echo {
    if timeout then e.(conn := ForceClose(e.conn)) else e
  }

  function AfterHangUp(e: Echo, t: Turn): Echo {
    if t.hangUp then e.(conn := HandleClose(e.conn)) else e
  }

  function AfterRead(e: Echo, t: Turn): Echo
    requires e.input.Valid() && (t.read.Bytes? ==> Possible(t.read.res, |t.read.data|))
  {
    match t.read
    case NoRead => e
    case ReadError(errno) => e.(conn := HandleRead(e.conn, B.Failed(errno)))
    case EndOfFile => e.(conn := HandleRead(e.conn, B.Took("")))
    case Bytes(data, res) => OnMessage(e.(conn := HandleRead(e.conn, B.Took(data))), data, res)
  }

  /** A write may take at most what is buffered; more is cut down to it. */
  function Within(res: WriteResult, len: nat): WriteResult {
    if res.Wrote? && res.n > len then Wrote(len) else res
  }

  function AfterWrite(e: Echo, t: Turn): Echo {
    if t.write.None? then e
    else e.(conn := HandleWrite(e.conn, Within(t.write.value, |e.conn.output|)))
  }

  function AfterCallbacks(e: Echo): Echo {
    e.(conn := RunCallbacks(e.conn.(tasks := []), e.conn.tasks))
  }

  /** The connection's events in the order of the channel: hang-up, read, write; then the queued callbacks. */
  function AfterEvents(e: Echo, t: Turn): Echo
    requires Possibly(e, t)
  {
    AfterTimeout(AfterWrite(AfterRead(AfterHangUp(AfterTimeout(e, t.timeoutFirst), t), t), t), t.timeoutLast)
  }

  function AfterTurn(e: Echo, t: Turn): Echo
    requires Possibly(e, t)
  {
    AfterCallbacks(AfterEvents(e, t))
  }

  // ----- between turns -----

  /** The most one read can deliver. */
  const MAX_READ := 2 * B.EXTRA - 1

  /** Reading goes on below the mark; it is off only while there is something to write, and then writing is on. */
  ghost predicate Flowing(e: Echo, mark: nat) {
    && e.conn.state == Connected
    && e.conn.tasks == []
    && e.conn.mark == Some(mark) && e.conn.notifies
    && StreamInv(e.conn) && ClosedCleanly(e.conn)
    && e.conn.log.passed == e.received
    && (|e.conn.output| >= mark ==> !e.conn.reading)
    && (!e.conn.reading ==> e.conn.output != "" && e.conn.writing)
    && |e.conn.output| <= mark + MAX_READ - 1
    && e.input.Valid() && e.input.reader == e.input.writer == B.CHEAP_PREPEND
    && e.input.Writable() <= MAX_READ
  }

  /** What the connection looks like after its read and write events, with the callbacks they have queued. */
  ghost predicate Handled(c: Conn, mark: nat) {
    && StreamInv(c) && ClosedCleanly(c)
    && |c.output| <= mark + MAX_READ - 1
    && (c.state == Connected ==>
         || (c.tasks == [] && (|c.output| >= mark ==> !c.reading) && (!c.reading ==> c.output != ""))
         || (c.tasks == [WriteComplete] && c.output == "")
         || (exists n :: c.tasks == [HighWater(n)] && c.output != "")
         || (exists n :: c.tasks == [HighWater(n), WriteComplete] && c.output == ""))
  }

  /** After the read event alone. */
  ghost predicate ReadDone(c: Conn, mark: nat) {
    && c.state == Connected && c.mark == Some(mark) && c.notifies && StreamInv(c) && ClosedCleanly(c)
    && |c.output| <= mark + MAX_READ - 1
    && (|| (c.tasks == [] && (|c.output| >= mark ==> !c.reading) && (!c.reading ==> c.output != ""))
        || (c.tasks == [WriteComplete] && c.output == "")
        || (exists n :: c.tasks == [HighWater(n)] && c.output != ""))
  }

  lemma RestKeeps(c: Conn, mark: nat, rest: string)
    requires c.mark == Some(mark) && c.tasks == [] && |c.output| < mark && rest != ""
    ensures var d := BufferRest(c, rest);
      && d == c.(output := c.output + rest, writing := true, registered := true, tasks := d.tasks)
      && d.tasks == if |d.output| >= mark then [HighWater(|d.output|)] else []
  {
    assert [] + [HighWater(|c.output| + |rest|)] == [HighWater(|c.output| + |rest|)];
  }

  lemma SendReads(c: Conn, mark: nat, data: string, res: WriteResult)
    requires c.state == Connected && c.mark == Some(mark) && c.notifies && StreamInv(c) && ClosedCleanly(c)
    requires c.tasks == [] && c.reading && |c.output| < mark
    requires 0 < |data| <= MAX_READ && Possible(res, |data|)
    ensures ReadDone(SendInLoop(c, data, res), mark)
    ensures c.writing ==> SendInLoop(c, data, res).writing
  {
    SendInLoopKeeps(c, data, res);
    SendKeepsLife(c, data, res);
    SendChanges(c, data, res);
    TasksOfSend(c, mark, data, res);
  }

  /** A send below the mark queues one callback at most: the buffer has reached the mark, or everything is out. */
  lemma TasksOfSend(c: Conn, mark: nat, data: string, res: WriteResult)
    requires c.state == Connected && c.mark == Some(mark) && c.notifies && (c.writing <==> c.output != "")
    requires c.tasks == [] && |c.output| < mark && data != "" && Possible(res, |data|)
    ensures var d := SendInLoop(c, data, res);
      d.tasks == if |d.output| >= mark then [HighWater(|d.output|)]
                 else if !c.writing && res.Wrote? && res.n == |data| then [WriteComplete] else []
  {
    hide BufferRest;
    var d := c.(log := c.log.(passed := c.log.passed + data));
    var e := d.(log := d.log.(assertsHold := d.log.assertsHold && d.output == ""));
    RestKeeps(d, mark, data);
    RestKeeps(e, mark, data);
    if res.Wrote? && res.n < |data| {
      RestKeeps(e.(log := e.log.(wire := e.log.wire + data[..res.n])), mark, data[res.n..]);
    }
    assert [] + [WriteComplete] == [WriteComplete];
  }

  lemma ReadKeeps(e: Echo, mark: nat, data: string, res: WriteResult)
    requires mark > 0 && Flowing(e, mark) && e.conn.reading
    requires 0 < |data| <= B.ReadLimit(e.input) && Possible(res, |data|)
    ensures var f := OnMessage(e, data, res);
      && ReadDone(f.conn, mark) && (e.conn.writing ==> f.conn.writing) && f.conn.log.passed == f.received
      && f.input.Valid() && f.input.reader == f.input.writer == B.CHEAP_PREPEND && f.input.Writable() <= MAX_READ
  {
    hide SendInLoop, B.WindowAfterRead, B.ReadLimit;
    B.ReadsStayBounded(e.input, |data|);
    var c := Promise(e.conn, data);
    SendReads(c, mark, data, res);
    SendPasses(c, data, res);
  }

  lemma SendPasses(c: Conn, data: string, res: WriteResult)
    requires Possible(res, |data|) && c.state != Disconnected
    ensures SendInLoop(c, data, res).log.passed == c.log.passed + data
  {
    SendChanges(c, data, res);
  }

  lemma WriteKeeps(c: Conn, mark: nat, res: WriteResult)
    requires ReadDone(c, mark) && c.writing && Possible(res, |c.output|)
    ensures var d := HandleWrite(c, res);
      && Handled(d, mark) && d.state == Connected && d.mark == c.mark && d.notifies && d.log.passed == c.log.passed
  {
    HandleWriteKeeps(c, res);
    WriteChanges(c, res);
    TasksOfWrite(c, res);
    hide HandleWrite, StreamInv;
    var d := HandleWrite(c, res);
    if c.tasks != [] {
      var n :| c.tasks == [HighWater(n)];
      assert d.tasks == [HighWater(n)] || d.tasks == [HighWater(n), WriteComplete];
    }
  }

  lemma TasksOfWrite(c: Conn, res: WriteResult)
    requires Possible(res, |c.output|) && c.state != Disconnected && c.notifies
    ensures HandleWrite(c, res).tasks == c.tasks + if Drains(c, res) then [WriteComplete] else []
  {
  }

  /** The callbacks run first in, first out; a drained buffer ends with reading on, a full one with reading off. */
  lemma CallbacksSettle(c: Conn, mark: nat)
    requires mark > 0 && Handled(c, mark) && c.state == Connected
    ensures var d := RunCallbacks(c.(tasks := []), c.tasks);
      && d == c.(tasks := [], reading := d.reading)
      && (|d.output| >= mark ==> !d.reading)
      && (!d.reading ==> d.output != "" && d.writing)
  {
    var b := c.(tasks := []);
    if c.tasks == [WriteComplete] {
      assert c.tasks[1..] == [];
      assert RunCallbacks(b, c.tasks) == OnWriteComplete(b);
    } else if c.tasks != [] {
      var n :| c.tasks == [HighWater(n)] || c.tasks == [HighWater(n), WriteComplete];
      var off := OnHighWaterMark(b);
      if c.tasks == [HighWater(n)] {
        assert c.tasks[1..] == [];
        assert RunCallbacks(b, c.tasks) == off;
      } else {
        assert c.tasks[1..] == [WriteComplete] && [WriteComplete][1..] == [];
        assert RunCallbacks(off, [WriteComplete]) == OnWriteComplete(off);
      }
    }
  }

  /** The connection stays open through this turn. */
  predicate StaysOpen(t: Turn) {
    !t.timeoutFirst && !t.timeoutLast && !t.hangUp && !t.read.EndOfFile?
  }

  lemma ReadPhase(e: Echo, mark: nat, t: Turn)
    requires mark > 0 && Flowing(e, mark) && Possibly(e, t) && !t.read.EndOfFile?
    ensures var f := AfterRead(e, t);
      && ReadDone(f.conn, mark) && (e.conn.writing ==> f.conn.writing) && f.conn.log.passed == f.received
      && f.input.Valid() && f.input.reader == f.input.writer == B.CHEAP_PREPEND && f.input.Writable() <= MAX_READ
  {
    hide OnMessage, B.ReadLimit;
    if t.read.Bytes? {
      ReadKeeps(e, mark, t.read.data, t.read.res);
    }
  }

  lemma WritePhase(e: Echo, mark: nat, t: Turn)
    requires ReadDone(e.conn, mark) && (t.write.Some? ==> e.conn.writing)
    ensures var f := AfterWrite(e, t);
      && f == e.(conn := f.conn)
      && Handled(f.conn, mark) && f.conn.state == Connected && f.conn.mark == e.conn.mark && f.conn.notifies
      && f.conn.log.passed == e.conn.log.passed
  {
    hide HandleWrite;
    if t.write.Some? {
      WriteKeeps(e.conn, mark, Within(t.write.value, |e.conn.output|));
    }
  }

  /** A turn that closes nothing ends with data flowing again; every byte received is echoed or still buffered. */
  lemma TurnKeepsFlowing(e: Echo, mark: nat, t: Turn)
    requires mark > 0 && Flowing(e, mark) && Possibly(e, t) && StaysOpen(t)
    ensures Flowing(AfterTurn(e, t), mark)
    ensures |AfterRead(e, t).conn.output| <= mark + MAX_READ - 1
    ensures AfterTurn(e, t).conn.output == AfterWrite(AfterRead(e, t), t).conn.output
  {
    hide AfterRead, AfterWrite, RunCallbacks;
    var f := AfterRead(e, t);
    var g := AfterWrite(f, t);
    ReadPhase(e, mark, t);
    WritePhase(f, mark, t);
    CallbacksSettle(g.conn, mark);
    assert AfterEvents(e, t) == g;
  }

  /** In one turn the read comes before the write, so that bytes just received can leave at once behind the others. */
  lemma ReadThenWrite(e: Echo, mark: nat, t: Turn)
    requires mark > 0 && Flowing(e, mark) && Possibly(e, t) && StaysOpen(t) && e.conn.writing
    requires t.read.Bytes? && t.write.Some? && t.write.value.Wrote?
    requires t.write.value.n <= |e.conn.output| + |t.read.data|
    ensures AfterTurn(e, t).conn.output == (e.conn.output + t.read.data)[t.write.value.n..]
  {
    TurnKeepsFlowing(e, mark, t);
    ReadBuffers(e, t);
  }

  /** Bytes that an open connection reads are sent back: they are passed on behind everything before them. */
  lemma ReadIsEchoed(e: Echo, t: Turn)
    requires e.conn.state == Connected && Possibly(e, t) && t.read.Bytes?
    ensures var f := AfterRead(e, t);
      f.received == e.received + t.read.data && f.conn.log.passed == e.conn.log.passed + t.read.data
  {
    hide SendInLoop;
    SendPasses(Promise(e.conn, t.read.data), t.read.data, t.read.res);
  }

  /** While bytes wait, what is read waits behind them. */
  lemma ReadBuffers(e: Echo, t: Turn)
    requires e.conn.state == Connected && e.conn.writing && Possibly(e, t) && t.read.Bytes?
    ensures var c := AfterRead(e, t).conn;
      c.state == Connected && c.output == e.conn.output + t.read.data
  {
  }

  // ----- closing turns -----

  /** Not closed yet. */
  ghost predicate Open(c: Conn) {
    c.state != Disconnected && ClosedCleanly(c)
  }

  /** Closed once; whether reading was turned on again is all that is left to know. */
  ghost predicate Shut(c: Conn) {
    && c.state == Disconnected && c.log.closes == 1 && c.log.eventsHold
    && !c.writing && (c.registered <==> c.reading)
  }

  /** No high-water callback is queued behind a forced close. */
  ghost predicate CloseComesLast(tasks: seq<Task>) {
    forall i, j :: 0 <= i < j < |tasks| && tasks[i].ForceClosed? ==> !tasks[j].HighWater?
  }

  ghost predicate NoHighWater(tasks: seq<Task>) {
    forall t :: t in tasks ==> !t.HighWater?
  }

  lemma CallbackShuts(c: Conn, t: Task)
    requires Open(c) || (Shut(c) && !t.HighWater?)
    ensures var d := RunCallback(c, t);
      && (Open(d) || Shut(d)) && d.output == c.output && d.tasks == c.tasks
      && (Shut(d) <==> Shut(c) || t.ForceClosed?)
  {
  }

  /** Callbacks close a connection at most once, and a forced close among them does close it. */
  lemma {:induction false} CallbacksShut(c: Conn, tasks: seq<Task>)
    requires CloseComesLast(tasks) && (Open(c) || (Shut(c) && NoHighWater(tasks)))
    ensures var d := RunCallbacks(c, tasks);
      && (Open(d) || Shut(d)) && d.output == c.output && d.tasks == c.tasks
      && (Shut(d) <==> Shut(c) || ForceClosed in tasks)
    decreases |tasks|
  {
    if tasks != [] {
      var t, rest := tasks[0], tasks[1..];
      assert t in tasks && tasks == [t] + rest && forall u :: u in rest ==> u in tasks;
      CallbackShuts(c, t);
      if t.ForceClosed? {
        forall u | u in rest ensures !u.HighWater? {
          var j :| 0 <= j < |rest| && rest[j] == u;
          assert tasks[j + 1] == u;
        }
      }
      hide RunCallback, Open, Shut;
      CallbacksShut(RunCallback(c, t), rest);
    }
  }

  /** A timeout handled after the connection's own events. */
  predicate LateTimeout(t: Turn) {
    !t.timeoutFirst && !t.hangUp && !t.read.EndOfFile? && t.timeoutLast
  }

  /** The channel itself reports the end. */
  predicate EndReported(t: Turn) {
    t.hangUp || t.read.EndOfFile?
  }

  /** A timeout handled before the connection's own events, which do not report the end. */
  predicate EarlyTimeout(t: Turn) {
    t.timeoutFirst && !EndReported(t)
  }

  lemma EventsBeforeLateTimeout(e: Echo, mark: nat, t: Turn)
    requires mark > 0 && Flowing(e, mark) && Possibly(e, t) && LateTimeout(t)
    ensures var d := AfterWrite(AfterRead(e, t), t);
      && AfterEvents(e, t) == d.(conn := ForceClose(d.conn))
      && Handled(d.conn, mark) && d.conn.state == Connected && d.input.Valid()
  {
    hide AfterRead, AfterWrite, Handled, ReadDone;
    ReadPhase(e, mark, t);
    ReadDoneWrites(e, mark, t);
    WritePhase(AfterRead(e, t), mark, t);
  }

  lemma ReadDoneWrites(e: Echo, mark: nat, t: Turn)
    requires Possibly(e, t) && (e.conn.writing ==> AfterRead(e, t).conn.writing)
    ensures t.write.Some? ==> AfterRead(e, t).conn.writing
  {
  }

  lemma EventsReportingEnd(e: Echo, mark: nat, t: Turn)
    requires mark > 0 && Flowing(e, mark) && Possibly(e, t) && EndReported(t)
    ensures AfterEvents(e, t) == e.(conn := HandleClose(AfterTimeout(e, t.timeoutFirst).conn))
  {
  }

  lemma EventsAfterEarlyTimeout(e: Echo, mark: nat, t: Turn)
    requires mark > 0 && Flowing(e, mark) && Possibly(e, t) && EarlyTimeout(t)
    ensures var f := AfterEvents(e, t);
      && f.conn.state == Disconnecting && Open(f.conn) && f.conn.tasks == ClosingTasks(WritesAll(e, t), t.timeoutLast)
      && |f.conn.output| <= |e.conn.output| && f.input.Valid()
  {
    hide HandleWrite, B.WindowAfterRead, B.ReadLimit;
    assert [] + [ForceClosed] == [ForceClosed];
    var a := AfterTimeout(e, true);
    ReadGivesUp(a, t);
    var c := AfterRead(a, t);
    if t.write.Some? {
      var res := Within(t.write.value, |c.conn.output|);
      WriteChanges(c.conn, res);
      TasksOfWrite(c.conn, res);
    }
  }

  lemma ReadGivesUp(e: Echo, t: Turn)
    requires e.input.Valid() && (t.read.Bytes? ==> Possible(t.read.res, |t.read.data|))
    requires e.conn.state == Disconnecting && !t.read.EndOfFile? && (t.read.Bytes? ==> t.read.data != "")
    ensures AfterRead(e, t).conn == e.conn && AfterRead(e, t).input.Valid()
  {
    match t.read
    case NoRead =>
    case ReadError(errno) => ReadWhileOpen(e.conn, B.Failed(errno));
    case Bytes(data, res) =>
      ReadWhileOpen(e.conn, B.Took(data));
      ReadFits(e.input, |data|);
  }

  lemma ReadWhileOpen(c: Conn, answer: B.ReadAnswer)
    requires c.state != Disconnected && (answer.Took? ==> answer.data != "")
    ensures HandleRead(c, answer) == c
  {
  }

  lemma ReadFits(w: B.Window, n: nat)
    requires w.Valid()
    ensures B.WindowAfterRead(w, n).Valid()
  {
  }

  /**
   A turn with a timeout, a hang-up or an end of stream closes the connection once; the memory bound holds there
   too.
   */
  lemma TurnCloses(e: Echo, mark: nat, t: Turn)
    requires mark > 0 && Flowing(e, mark) && Possibly(e, t) && !StaysOpen(t)
    ensures var f := AfterTurn(e, t);
      Shut(f.conn) && f.conn.tasks == [] && |f.conn.output| <= mark + MAX_READ - 1 && f.input.Valid()
  {
    hide AfterEvents, RunCallbacks, HandleClose;
    var c := AfterEvents(e, t).conn;
    if EndReported(t) {
      EventsReportingEnd(e, mark, t);
      EndShuts(e, mark, t.timeoutFirst);
    } else if t.timeoutFirst {
      EventsAfterEarlyTimeout(e, mark, t);
      ClosingTasksInOrder(WritesAll(e, t), t.timeoutLast);
    } else {
      EventsBeforeLateTimeout(e, mark, t);
      LateTimeoutInOrder(AfterWrite(AfterRead(e, t), t).conn, mark);
    }
    CallbacksShut(c.(tasks := []), c.tasks);
  }

  lemma EndShuts(e: Echo, mark: nat, timeoutFirst: bool)
    requires Flowing(e, mark)
    ensures var c := HandleClose(AfterTimeout(e, timeoutFirst).conn);
      && Shut(c) && !c.reading && c.output == e.conn.output && CloseComesLast(c.tasks) && NoHighWater(c.tasks)
      && c.tasks == if timeoutFirst then [ForceClosed] else []
  {
    assert [] + [ForceClosed] == [ForceClosed];
  }

  lemma ClosingTasksInOrder(drains: bool, timeoutLast: bool)
    ensures CloseComesLast(ClosingTasks(drains, timeoutLast)) && ForceClosed in ClosingTasks(drains, timeoutLast)
  {
    assert ClosingTasks(drains, timeoutLast)[0] == ForceClosed;
  }

  lemma LateTimeoutInOrder(c: Conn, mark: nat)
    requires Handled(c, mark) && c.state == Connected
    ensures var d := ForceClose(c);
      Open(d) && CloseComesLast(d.tasks) && ForceClosed in d.tasks && d.output == c.output && ForceClosed !in c.tasks
  {
    assert (c.tasks + [ForceClosed])[|c.tasks|] == ForceClosed;
  }

  // ----- after the close -----

  ghost predicate Closed(e: Echo, mark: nat) {
    && e.conn.state == Disconnected && e.conn.tasks == [] && !e.conn.writing
    && |e.conn.output| <= mark + MAX_READ - 1 && e.input.Valid()
  }

  /** What a turn does to a closed connection: its timeouts and bytes are ignored, its events are failures. */
  lemma ClosedTurn(e: Echo, mark: nat, t: Turn)
    requires Closed(e, mark) && Possibly(e, t)
    ensures var f := AfterTurn(e, t); var c := e.conn;
      && Closed(f, mark)
      && f.conn == if t.hangUp then HandleClose(c)
                   else if t.read.NoRead? then c
                   else if t.read.EndOfFile? then HandleClose(c)
                   else c.(log := c.log.(eventsHold := false))
  {
    if t.read.Bytes? {
      ReadFits(e.input, |t.read.data|);
    }
  }

  // ----- runs, past the close too -----

  ghost predicate CanRunTurns(e: Echo, turns: seq<Turn>)
    decreases |turns|
  {
    turns == [] || (Possibly(e, turns[0]) && CanRunTurns(AfterTurn(e, turns[0]), turns[1..]))
  }

  ghost function AfterTurns(e: Echo, turns: seq<Turn>): Echo
    requires CanRunTurns(e, turns)
    decreases |turns|
  {
    if turns == [] then e else AfterTurns(AfterTurn(e, turns[0]), turns[1..])
  }

  lemma TurnKeeps(e: Echo, mark: nat, t: Turn)
    requires mark > 0 && (Flowing(e, mark) || Closed(e, mark)) && Possibly(e, t)
    ensures Flowing(AfterTurn(e, t), mark) || Closed(AfterTurn(e, t), mark)
  {
    hide AfterTurn;
    if Closed(e, mark) {
      ClosedTurn(e, mark, t);
    } else if StaysOpen(t) {
      TurnKeepsFlowing(e, mark, t);
    } else {
      TurnCloses(e, mark, t);
    }
  }

  lemma {:induction false} TurnsKeep(e: Echo, mark: nat, turns: seq<Turn>)
    requires mark > 0 && CanRunTurns(e, turns) && (Flowing(e, mark) || Closed(e, mark))
    ensures Flowing(AfterTurns(e, turns), mark) || Closed(AfterTurns(e, turns), mark)
    decreases |turns|
  {
    if turns != [] {
      TurnKeeps(e, mark, turns[0]);
      TurnsKeep(AfterTurn(e, turns[0]), mark, turns[1..]);
    }
  }

  /**
   After every turn of every run: the buffer is bounded; an open connection reads only below the mark, never
   stalls, and what it received is what it has written followed by what it still holds, unless a write broke.
   */
  lemma BackPressure(mark: nat, turns: seq<Turn>)
    requires mark > 0 && CanRunTurns(Start(mark), turns)
    ensures var e := AfterTurns(Start(mark), turns);
      && |e.conn.output| <= mark + 131070
      && (e.conn.state != Disconnected ==>
           && (|e.conn.output| >= mark ==> !e.conn.reading)
           && (!e.conn.reading ==> e.conn.output != "" && e.conn.writing)
           && e.conn.log.assertsHold
           && (!e.conn.log.broken ==> e.conn.log.wire + e.conn.output == e.received))
  {
    TurnsKeep(Start(mark), mark, turns);
  }

  /** In the middle of a turn too: the bound holds right after the read that fills the buffer. */
  lemma BoundDuringTurn(mark: nat, turns: seq<Turn>, t: Turn)
    requires mark > 0 && CanRunTurns(Start(mark), turns) && Possibly(AfterTurns(Start(mark), turns), t)
    ensures |AfterRead(AfterTurns(Start(mark), turns), t).conn.output| <= mark + 131070
  {
    var e := AfterTurns(Start(mark), turns);
    TurnsKeep(Start(mark), mark, turns);
    if e.conn.state == Connected && !t.read.EndOfFile? {
      ReadPhase(e, mark, t);
    }
  }

  // ----- reading again after the close -----

  /** The write of this turn takes everything that is buffered at its start. */
  predicate WritesAll(e: Echo, t: Turn) {
    t.write.Some? && t.write.value.Wrote? && t.write.value.n >= |e.conn.output|
  }

  /** The callbacks queued in a turn that a timeout opens. */
  function ClosingTasks(drains: bool, timeoutLast: bool): seq<Task> {
    [ForceClosed] + (if drains then [WriteComplete] else []) + (if timeoutLast then [ForceClosed] else [])
  }

  /**
   The write-complete callback turns reading on without asking whether the connection is still open. The turn
   that closes the connection leaves it reading exactly if a timeout comes before a write that drains the buffer.
   */
  lemma ReadingAfterClose(e: Echo, mark: nat, t: Turn)
    requires mark > 0 && Flowing(e, mark) && Possibly(e, t) && !StaysOpen(t)
    ensures AfterTurn(e, t).conn.reading <==> EarlyTimeout(t) && WritesAll(e, t)
  {
    hide AfterEvents, Handled, HandleClose;
    var c := AfterEvents(e, t).conn;
    if EndReported(t) {
      EventsReportingEnd(e, mark, t);
      EndShuts(e, mark, t.timeoutFirst);
      ShutStays(c.(tasks := []), c.tasks);
    } else if t.timeoutFirst {
      EventsAfterEarlyTimeout(e, mark, t);
      RunAfterTimeout(c.(tasks := []), WritesAll(e, t), t.timeoutLast);
    } else {
      EventsBeforeLateTimeout(e, mark, t);
      var d := AfterWrite(AfterRead(e, t), t).conn;
      LateTimeoutInOrder(d, mark);
      QuietAtTheEnd(c.(tasks := []), d.tasks);
    }
  }

  lemma {:induction false} ShutStays(c: Conn, tasks: seq<Task>)
    requires c.state == Disconnected && forall t :: t in tasks ==> t == ForceClosed
    ensures RunCallbacks(c, tasks) == c
    decreases |tasks|
  {
    if tasks != [] {
      assert tasks[0] in tasks && forall t :: t in tasks[1..] ==> t in tasks;
      ShutStays(c, tasks[1..]);
    }
  }

  lemma {:induction false} QuietAtTheEnd(c: Conn, tasks: seq<Task>)
    requires c.state == Disconnecting && ForceClosed !in tasks
    ensures !RunCallbacks(c, tasks + [ForceClosed]).reading
    decreases |tasks|
  {
    var all := tasks + [ForceClosed];
    if tasks == [] {
      assert all == [ForceClosed] && all[1..] == [];
    } else {
      assert tasks[0] in tasks && all[1..] == tasks[1..] + [ForceClosed];
      QuietAtTheEnd(RunCallback(c, tasks[0]), tasks[1..]);
    }
  }

  lemma RunAfterTimeout(c: Conn, drains: bool, timeoutLast: bool)
    requires c.state == Disconnecting
    ensures RunCallbacks(c, ClosingTasks(drains, timeoutLast)).reading <==> drains
  {
    var last := if timeoutLast then [ForceClosed] else [];
    var tasks := ClosingTasks(drains, timeoutLast);
    var closed := HandleClose(c);
    assert tasks[1..] == (if drains then [WriteComplete] else []) + last;
    assert RunCallbacks(c, tasks) == RunCallbacks(closed, tasks[1..]);
    if drains {
      assert tasks[1..][1..] == last;
      ShutStays(StartRead(closed), last);
    } else {
      assert tasks[1..] == last;
      ShutStays(closed, last);
    }
  }

  /** In some turn of this run a timeout comes before a write that drains the buffer of the open connection. */
  ghost predicate Overtakes(e: Echo, turns: seq<Turn>)
    requires CanRunTurns(e, turns)
    decreases |turns|
  {
    turns != [] &&
    ((e.conn.state == Connected && EarlyTimeout(turns[0]) && WritesAll(e, turns[0]))
     || Overtakes(AfterTurn(e, turns[0]), turns[1..]))
  }

  /** The connection is closed once at most, no event assertion has failed, and no possible turn changes that. */
  ghost predicate SettledEcho(e: Echo) {
    Unharmed(e.conn) && forall t :: Possibly(e, t) ==> Unharmed(AfterTurn(e, t).conn)
  }

  /** Closed once, with reading off for good. */
  ghost predicate Finished(e: Echo, mark: nat) {
    Closed(e, mark) && Shut(e.conn) && !e.conn.reading
  }

  /** Closed, and reading again, or already closed twice or failed. */
  ghost predicate Revived(e: Echo, mark: nat) {
    Closed(e, mark) && e.conn.log.closes >= 1 && ((e.conn.reading && e.conn.registered) || !Unharmed(e.conn))
  }

  /** The turn that closes the connection finishes it or revives it. */
  lemma ClosingTurn(e: Echo, mark: nat, t: Turn)
    requires mark > 0 && Flowing(e, mark) && Possibly(e, t) && !StaysOpen(t)
    ensures var f := AfterTurn(e, t);
      Unharmed(f.conn) && if EarlyTimeout(t) && WritesAll(e, t) then Revived(f, mark) else Finished(f, mark)
  {
    hide AfterTurn;
    TurnCloses(e, mark, t);
    ReadingAfterClose(e, mark, t);
  }

  lemma FinishedStays(e: Echo, mark: nat, t: Turn)
    requires Finished(e, mark) && Possibly(e, t)
    ensures Finished(AfterTurn(e, t), mark)
  {
    hide AfterTurn;
    ClosedTurn(e, mark, t);
  }

  lemma RevivedStays(e: Echo, mark: nat, t: Turn)
    requires Revived(e, mark) && Possibly(e, t)
    ensures Revived(AfterTurn(e, t), mark)
  {
    hide AfterTurn;
    ClosedTurn(e, mark, t);
  }

  lemma {:induction false} RevivedRun(e: Echo, mark: nat, turns: seq<Turn>)
    requires Revived(e, mark) && CanRunTurns(e, turns)
    ensures Revived(AfterTurns(e, turns), mark)
    decreases |turns|
  {
    if turns != [] {
      RevivedStays(e, mark, turns[0]);
      RevivedRun(AfterTurn(e, turns[0]), mark, turns[1..]);
    }
  }

  lemma {:induction false} EchoRun(e: Echo, mark: nat, turns: seq<Turn>)
    requires mark > 0 && CanRunTurns(e, turns) && (Flowing(e, mark) || Finished(e, mark))
    ensures var f := AfterTurns(e, turns);
      if Overtakes(e, turns) then Revived(f, mark) else Flowing(f, mark) || Finished(f, mark)
    decreases |turns|
  {
    if turns != [] {
      var t := turns[0];
      var f := AfterTurn(e, t);
      if Finished(e, mark) {
        FinishedStays(e, mark, t);
        EchoRun(f, mark, turns[1..]);
      } else if StaysOpen(t) {
        TurnKeepsFlowing(e, mark, t);
        EchoRun(f, mark, turns[1..]);
      } else {
        ClosingTurn(e, mark, t);
        if EarlyTimeout(t) && WritesAll(e, t) {
          RevivedRun(f, mark, turns[1..]);
        } else {
          EchoRun(f, mark, turns[1..]);
        }
      }
    }
  }

  /** The next end of stream closes a revived connection a second time. */
  lemma RevivedCanFail(e: Echo, mark: nat)
    requires Revived(e, mark)
    ensures !SettledEcho(e)
  {
    hide AfterTurn;
    if Unharmed(e.conn) {
      var t := Turn(false, false, EndOfFile, None, false);
      assert Possibly(e, t);
      ClosedTurn(e, mark, t);
    }
  }

  lemma TurnUnharmed(e: Echo, mark: nat, t: Turn)
    requires mark > 0 && (Flowing(e, mark) || Finished(e, mark)) && Possibly(e, t)
    ensures Unharmed(AfterTurn(e, t).conn)
  {
    hide AfterTurn;
    if Finished(e, mark) {
      FinishedStays(e, mark, t);
    } else if StaysOpen(t) {
      TurnKeepsFlowing(e, mark, t);
    } else {
      ClosingTurn(e, mark, t);
    }
  }

  /**
   Over every run, past the close too: the echo server's connection closes once at most and fails no event
   assertion, now and in the next turn, exactly if no timeout has come before a write that drains the buffer.
   */
  lemma SettledIffNoOvertaking(mark: nat, turns: seq<Turn>)
    requires mark > 0 && CanRunTurns(Start(mark), turns)
    ensures SettledEcho(AfterTurns(Start(mark), turns)) <==> !Overtakes(Start(mark), turns)
  {
    var e := AfterTurns(Start(mark), turns);
    EchoRun(Start(mark), mark, turns);
    if Overtakes(Start(mark), turns) {
      RevivedCanFail(e, mark);
    } else {
      forall t | Possibly(e, t) ensures Unharmed(AfterTurn(e, t).conn) {
        TurnUnharmed(e, mark, t);
      }
    }
  }

  // ----- such a run -----

  const OneByte := Turn(false, false, Bytes("x", Again), None, false)
  const TimeoutThenWrite := Turn(true, false, NoRead, Some(Wrote(1)), false)
  const PeerCloses := Turn(false, false, EndOfFile, None, false)

  lemma OneByteBuffered(mark: nat)
    requires mark > 0
    ensures Possibly(Start(mark), OneByte)
    ensures var e := AfterTurn(Start(mark), OneByte);
      Flowing(e, mark) && e.conn.output == "x" && Possibly(e, TimeoutThenWrite) && WritesAll(e, TimeoutThenWrite)
  {
    TurnKeepsFlowing(Start(mark), mark, OneByte);
    ReadWhileOpen(Start(mark).conn, B.Took("x"));
    var c := Promise(Start(mark).conn, "x");
    SendChanges(c, "x", Again);
    assert "x"[0..] == "x" && "" + "x" == "x";
  }

  lemma RunOfThree(e: Echo, a: Turn, b: Turn, c: Turn)
    requires Possibly(e, a) && Possibly(AfterTurn(e, a), b) && Possibly(AfterTurn(AfterTurn(e, a), b), c)
    ensures CanRunTurns(e, [a, b]) && AfterTurns(e, [a, b]) == AfterTurn(AfterTurn(e, a), b)
    ensures CanRunTurns(e, [a, b, c]) && AfterTurns(e, [a, b, c]) == AfterTurn(AfterTurn(AfterTurn(e, a), b), c)
  {
    hide AfterTurn, Possibly;
    var f := AfterTurn(e, a);
    var g := AfterTurn(f, b);
    assert [c][1..] == [] && [b][1..] == [] && [b, c][1..] == [c] && [a, b][1..] == [b] && [a, b, c][1..] == [b, c];
    assert CanRunTurns(g, [c]) && AfterTurns(g, [c]) == AfterTurn(g, c);
    assert CanRunTurns(f, [b]) && AfterTurns(f, [b]) == g;
    assert CanRunTurns(f, [b, c]) && AfterTurns(f, [b, c]) == AfterTurn(g, c);
  }

  lemma PeerCanClose(e: Echo, mark: nat)
    requires Closed(e, mark) && e.conn.reading
    ensures Possibly(e, PeerCloses)
  {
  }

  /** A byte arrives and cannot be written back yet; the timeout comes before the write; the peer closes. */
  lemma EchoClosesTwice(mark: nat)
    requires mark > 0
    ensures CanRunTurns(Start(mark), [OneByte, TimeoutThenWrite, PeerCloses])
    ensures CanRunTurns(Start(mark), [OneByte, TimeoutThenWrite])
    ensures var two := AfterTurns(Start(mark), [OneByte, TimeoutThenWrite]);
      two.conn.state == Disconnected && two.conn.reading && two.conn.log.closes == 1
    ensures var three := AfterTurns(Start(mark), [OneByte, TimeoutThenWrite, PeerCloses]);
      three.conn.log.closes == 2 && !three.conn.log.eventsHold
  {
    hide AfterTurn, Possibly;
    OneByteBuffered(mark);
    var e := AfterTurn(Start(mark), OneByte);
    var f := AfterTurn(e, TimeoutThenWrite);
    TurnCloses(e, mark, TimeoutThenWrite);
    ReadingAfterClose(e, mark, TimeoutThenWrite);
    PeerCanClose(f, mark);
    ClosedTurn(f, mark, PeerCloses);
    RunOfThree(Start(mark), OneByte, TimeoutThenWrite, PeerCloses);
  }
}
