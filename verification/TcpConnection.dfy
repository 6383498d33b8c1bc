/**
 A TCP connection's output path and life cycle: direct and buffered writes, deferred half-close, forced
 close, the events of its channel, and the callbacks queued on the loop. The kernel's answers are parameters.
 */
module TcpConnection {
  import opened Common
  import B = Buffer

  datatype ConnState = Connected | Disconnecting | Disconnected

  /** What `write` answered: bytes taken, EAGAIN, a broken connection, or any other error. */
  datatype WriteResult = Wrote(n: nat) | Again | Broken | OtherError

  /** The callbacks a connection has queued on its loop. */
  datatype Task = WriteComplete | HighWater(len: nat) | ForceClosed | HalfCloseLater | SendLater(data: string)

  /**
   History: bytes given to the socket, bytes passed to `sendInLoop`, how many bytes callers were promised, the
   bytes on the wire at the last half-close, counts, whether a write broke the connection, whether the assertions
   of the output path have held, and whether those of `handleRead` and `handleClose` have.
   */
  datatype Log = Log(
    wire: string,
    passed: string,
    promised: nat,
    halfClosed: Option<string>,
    halfCloses: nat,
    closes: nat,
    broken: bool,
    assertsHold: bool,
    eventsHold: bool)

  /**
   `registered` tells that the channel has some event enabled, so that the poller reports it; turning reading
   off leaves it registered. `mark` is the high-water mark, `None` without its callback.
   */
  datatype Conn = Conn(
    state: ConnState,
    output: string,
    reading: bool,
    writing: bool,
    registered: bool,
    mark: Option<nat>,
    notifies: bool,
    tasks: seq<Task>,
    log: Log)

  const NewLog := Log("", "", 0, None, 0, 0, false, true, true)

  /** A connection just established. */
  function Established(mark: Option<nat>, notifies: bool): Conn {
    Conn(Connected, "", true, false, true, mark, notifies, [], NewLog)
  }

  function Queue(c: Conn, t: Task): Conn {
    c.(tasks := c.tasks + [t])
  }

  function Announce(c: Conn): Conn {
    if c.notifies then Queue(c, WriteComplete) else c
  }

  /** The rest of a send goes to the output buffer, and crossing the mark is reported. */
  function BufferRest(c: Conn, rest: string): Conn {
    if rest == "" then c
    else
      var oldLen, newLen := |c.output|, |c.output| + |rest|;
      var crossed := c.mark.Some? && oldLen < c.mark.value && newLen >= c.mark.value;
      var d := if crossed then Queue(c, HighWater(newLen)) else c;
      d.(output := c.output + rest, writing := true, registered := true)
  }

  predicate Possible(res: WriteResult, len: nat) {
    res.Wrote? ==> res.n <= len
  }

  /** The socket has taken the first `n` bytes of a send: all of them, or the rest is kept. */
  function Taken(c: Conn, data: string, n: nat): Conn
    requires n <= |data|
  {
    var d := c.(log := c.log.(wire := c.log.wire + data[..n]));
    if n == |data| then Announce(d) else BufferRest(d, data[n..])
  }

  /** What the answer of `write` makes of a send. */
  function Answered(c: Conn, data: string, res: WriteResult): Conn
    requires Possible(res, |data|)
  {
    match res
    case Wrote(n) => Taken(c, data, n)
    case Broken => c.(log := c.log.(broken := true))
    case _ => BufferRest(c, data)
  }

  function DirectWrite(c: Conn, data: string, res: WriteResult): Conn
    requires Possible(res, |data|)
  {
    Answered(c.(log := c.log.(assertsHold := c.log.assertsHold && c.output == "")), data, res)
  }

  function SendInLoop(c: Conn, data: string, res: WriteResult): Conn
    requires Possible(res, |data|)
  {
    if c.state == Disconnected then c
    else
      var d := c.(log := c.log.(passed := c.log.passed + data));
      if c.writing then BufferRest(d, data) else DirectWrite(d, data, res)
  }

  /** A caller has been told that its bytes will be sent. */
  function Promise(c: Conn, data: string): Conn {
    c.(log := c.log.(promised := c.log.promised + |data|))
  }

  function Send(c: Conn, data: string, res: WriteResult): Conn
    requires Possible(res, |data|)
  {
    if c.state != Connected then c else SendInLoop(Promise(c, data), data, res)
  }

  /** `send` from another thread: the state is checked there, the bytes are copied into a queued task. */
  function ForeignSend(c: Conn, data: string): Conn {
    if c.state != Connected then c else Queue(Promise(c, data), SendLater(data))
  }

  function ShutdownInLoop(c: Conn): Conn {
    if c.state != Disconnected && !c.writing
    then c.(log := c.log.(halfCloses := c.log.halfCloses + 1, halfClosed := Some(c.log.wire)))
    else c
  }

  /** `shutdown`, on the loop thread or on another one. */
  function Shutdown(c: Conn, inLoop: bool): Conn
    requires c.state != Disconnected
  {
    var d := c.(state := Disconnecting);
    if c.state != Connected then d
    else if inLoop then ShutdownInLoop(d)
    else Queue(d, HalfCloseLater)
  }

  function ForceClose(c: Conn): Conn {
    if c.state == Disconnected then c else Queue(c.(state := Disconnecting), ForceClosed)
  }

  function HandleClose(c: Conn): Conn {
    c.(state := Disconnected, reading := false, writing := false, registered := false,
       log := c.log.(closes := c.log.closes + 1, eventsHold := c.log.eventsHold && c.state != Disconnected))
  }

  /** `handleRead`: bytes go to the message callback, which acts through further steps. */
  function HandleRead(c: Conn, answer: B.ReadAnswer): Conn {
    var d := c.(log := c.log.(eventsHold := c.log.eventsHold && c.state != Disconnected));
    if answer.Took? && answer.data == "" then HandleClose(d) else d
  }

  function ForceCloseInLoop(c: Conn): Conn {
    if c.state == Disconnected then c else HandleClose(c)
  }

  function HandleWrite(c: Conn, res: WriteResult): Conn
    requires Possible(res, |c.output|)
  {
    if c.state == Disconnected then c
    else
      var log := c.log.(assertsHold := c.log.assertsHold && c.output != "" && c.writing);
      if !res.Wrote? then c.(log := log)
      else
        var d := c.(log := log.(wire := log.wire + c.output[..res.n]), output := c.output[res.n..]);
        if Drains(c, res) then Drained(d) else d
  }

  /** This write takes everything there is. */
  predicate Drains(c: Conn, res: WriteResult) {
    res.Wrote? && res.n == |c.output|
  }

  /** The last byte is out: writing stops, a shutdown that was waiting for it happens, the callback is queued. */
  function Drained(c: Conn): Conn {
    var d := c.(writing := false);
    Announce(if d.state == Disconnecting then ShutdownInLoop(d) else d)
  }

  function StopRead(c: Conn): Conn {
    c.(reading := false)
  }

  function StartRead(c: Conn): Conn {
    c.(reading := true, registered := true)
  }

  class TcpConnection {
    var state: ConnState
    const outputBuffer: B.Buffer
    var reading: bool
    var writing: bool
    var registered: bool
    var highWaterMark: Option<nat>
    var writeCompleteCallback: bool
    var tasks: seq<Task>
    ghost var log: Log

    ghost predicate Valid()
      reads this, outputBuffer
    {
      outputBuffer.Valid() && (reading ==> registered)
    }

    ghost function State(): Conn
      requires Valid()
      reads this, outputBuffer, outputBuffer.buffer
    {
      Conn(state, outputBuffer.Contents(), reading, writing, registered, highWaterMark, writeCompleteCallback,
           tasks, log)
    }

    /** The connection as its owner sees it after `connectEstablished`. */
    constructor (mark: Option<nat>, notifies: bool)
      ensures Valid() && State() == Established(mark, notifies)
      ensures fresh(outputBuffer) && fresh(outputBuffer.buffer)
    {
      state := Connected;
      outputBuffer := new B.Buffer(1024);
      reading, writing, registered := true, false, true;
      highWaterMark, writeCompleteCallback, tasks, log := mark, notifies, [], NewLog;
    }

    lemma Fields()
      requires Valid()
      ensures var c := State();
        && c.state == state && c.output == outputBuffer.Contents() && c.writing == writing
        && c.notifies == writeCompleteCallback && c.log == log
    {
    }

    ghost method SetLog(l: Log)
      requires Valid()
      modifies this`log
      ensures Valid() && log == l && State() == old(State()).(log := l)
    {
      log := l;
    }

    /** `queueInLoop` of one of the connection's callbacks. */
    method QueueTask(t: Task)
      requires Valid()
      modifies this`tasks
      ensures Valid() && State() == Queue(old(State()), t)
    {
      tasks := tasks + [t];
    }

    method DoSendInLoop(data: string, res: WriteResult)
      requires Valid() && Possible(res, |data|)
      modifies this, outputBuffer, outputBuffer.buffer
      ensures Valid() && (outputBuffer.buffer == old(outputBuffer.buffer) || fresh(outputBuffer.buffer))
      ensures State() == SendInLoop(old(State()), data, res)
    {
      hide BufferRest, B.Buffer.Contents;
      if state == Disconnected {
        return;
      }
      log := log.(passed := log.passed + data);
      if writing {
        KeepRest(data);
      } else {
        WriteDirectly(data, res);
      }
    }

    /** `send` of a whole buffer, on the loop thread or on another one: it is emptied only if the connection is open. */
    method SendBuffer(buffer: B.Buffer, res: WriteResult, inLoop: bool)
      requires Valid() && buffer.Valid() && buffer != outputBuffer && buffer.buffer != outputBuffer.buffer
      requires Possible(res, |buffer.Contents()|)
      modifies this, outputBuffer, outputBuffer.buffer, buffer`readerIndex, buffer`writerIndex
      ensures Valid() && (outputBuffer.buffer == old(outputBuffer.buffer) || fresh(outputBuffer.buffer))
      ensures State() == if inLoop then Send(old(State()), old(buffer.Contents()), res)
                         else ForeignSend(old(State()), old(buffer.Contents()))
      ensures buffer.Valid() && buffer.Contents() == if old(state) == Connected then "" else old(buffer.Contents())
    {
      if state != Connected {
        return;
      }
      hide Send, ForeignSend;
      var data := buffer.buffer[buffer.readerIndex..buffer.writerIndex];
      DoSend(data, res, inLoop);
      buffer.RetrieveAll();
    }

    method DoSend(data: string, res: WriteResult, inLoop: bool)
      requires Valid() && Possible(res, |data|)
      modifies this, outputBuffer, outputBuffer.buffer
      ensures Valid() && (outputBuffer.buffer == old(outputBuffer.buffer) || fresh(outputBuffer.buffer))
      ensures State() == if inLoop then Send(old(State()), data, res) else ForeignSend(old(State()), data)
    {
      hide SendInLoop, State;
      Fields();
      if state == Connected {
        SetLog(log.(promised := log.promised + |data|));
        if inLoop {
          DoSendInLoop(data, res);
        } else {
          QueueTask(SendLater(data));
        }
      }
    }

    method Written(data: string, n: nat)
      requires Valid() && n <= |data|
      modifies this, outputBuffer, outputBuffer.buffer
      ensures Valid() && (outputBuffer.buffer == old(outputBuffer.buffer) || fresh(outputBuffer.buffer))
      ensures State() == Taken(old(State()), data, n)
    {
      hide BufferRest, Announce, State;
      Fields();
      SetLog(log.(wire := log.wire + data[..n]));
      if n == |data| {
        AnnounceWritten();
      } else {
        KeepRest(data[n..]);
      }
    }

    method AnnounceWritten()
      requires Valid()
      modifies this`tasks
      ensures Valid() && State() == Announce(old(State()))
    {
      if writeCompleteCallback {
        tasks := tasks + [WriteComplete];
      }
    }

    /** Nothing is waiting, so the bytes are offered to the socket at once. */
    method WriteDirectly(data: string, res: WriteResult)
      requires Valid() && Possible(res, |data|)
      modifies this, outputBuffer, outputBuffer.buffer
      ensures Valid() && (outputBuffer.buffer == old(outputBuffer.buffer) || fresh(outputBuffer.buffer))
      ensures State() == DirectWrite(old(State()), data, res)
    {
      hide Answered, State;
      Fields();
      SetLog(log.(assertsHold := log.assertsHold && outputBuffer.Contents() == ""));
      TakeAnswer(data, res);
    }

    method TakeAnswer(data: string, res: WriteResult)
      requires Valid() && Possible(res, |data|)
      modifies this, outputBuffer, outputBuffer.buffer
      ensures Valid() && (outputBuffer.buffer == old(outputBuffer.buffer) || fresh(outputBuffer.buffer))
      ensures State() == Answered(old(State()), data, res)
    {
      hide BufferRest, Taken, State;
      Fields();
      match res {
        case Wrote(n) =>
          Written(data, n);
        case Broken =>
          SetLog(log.(broken := true));
        case _ =>
          KeepRest(data);
      }
    }

    /** The end of `sendInLoop`: what is not written goes to the output buffer. */
    method KeepRest(rest: string)
      requires Valid()
      modifies this`tasks, this`writing, this`registered, outputBuffer, outputBuffer.buffer
      ensures Valid() && (outputBuffer.buffer == old(outputBuffer.buffer) || fresh(outputBuffer.buffer))
      ensures State() == BufferRest(old(State()), rest)
    {
      if |rest| > 0 {
        if highWaterMark.Some? {
          var oldLen := outputBuffer.writerIndex - outputBuffer.readerIndex;
          var newLen := oldLen + |rest|;
          if oldLen < highWaterMark.value && newLen >= highWaterMark.value {
            tasks := tasks + [HighWater(newLen)];
          }
        }
        outputBuffer.Append(rest);
        writing, registered := true, true;
      }
    }

    method DoShutdownInLoop()
      requires Valid()
      modifies this
      ensures Valid() && State() == ShutdownInLoop(old(State()))
    {
      if state != Disconnected && !writing {
        log := log.(halfCloses := log.halfCloses + 1, halfClosed := Some(log.wire));
      }
    }

    method DoShutdown(inLoop: bool)
      requires Valid() && state != Disconnected
      modifies this
      ensures Valid() && State() == Shutdown(old(State()), inLoop)
      ensures state == Disconnecting
      ensures tasks == if old(state) == Connected && !inLoop then old(tasks) + [HalfCloseLater] else old(tasks)
      ensures log.halfCloses
        == old(log).halfCloses + if old(state) == Connected && inLoop && !old(writing) then 1 else 0
    {
      var was := state;
      state := Disconnecting;
      if was == Connected {
        if inLoop {
          DoShutdownInLoop();
        } else {
          tasks := tasks + [HalfCloseLater];
        }
      }
    }

    method DoForceClose()
      requires Valid()
      modifies this`state, this`tasks
      ensures Valid() && State() == ForceClose(old(State()))
      ensures if old(state) == Disconnected then state == Disconnected && tasks == old(tasks)
              else state == Disconnecting && tasks == old(tasks) + [ForceClosed]
    {
      if state != Disconnected {
        state := Disconnecting;
        tasks := tasks + [ForceClosed];
      }
    }

    method DoHandleClose()
      requires Valid()
      modifies this
      ensures Valid() && State() == HandleClose(old(State()))
      ensures state == Disconnected && !reading && !writing && !registered && log.closes == old(log).closes + 1
    {
      log := log.(closes := log.closes + 1, eventsHold := log.eventsHold && state != Disconnected);
      state := Disconnected;
      reading, writing, registered := false, false, false;
    }

    /** `deliver` tells that the message callback is called with the input buffer. */
    method DoHandleRead(input: B.Buffer, answer: B.ReadAnswer) returns (deliver: bool)
      requires Valid() && input.Valid() && input != outputBuffer && input.buffer != outputBuffer.buffer
      requires answer.Took? ==> |answer.data| <= B.ReadLimit(input.Sizes())
      modifies this, input, input.buffer
      ensures Valid() && State() == HandleRead(old(State()), answer)
      ensures input.Valid() && (input.buffer == old(input.buffer) || fresh(input.buffer))
      ensures deliver <==> answer.Took? && answer.data != ""
      ensures input.Contents() == if answer.Took? then old(input.Contents()) + answer.data else old(input.Contents())
    {
      log := log.(eventsHold := log.eventsHold && state != Disconnected);
      var n, _ := input.ReadFd(answer);
      deliver := n > 0;
      if n == 0 {
        DoHandleClose();
      }
    }

    method DoHandleWrite(res: WriteResult)
      requires Valid() && Possible(res, |outputBuffer.Contents()|)
      modifies this, outputBuffer
      ensures Valid() && outputBuffer.buffer == old(outputBuffer.buffer)
      ensures State() == HandleWrite(old(State()), res)
    {
      hide Drained, State;
      Fields();
      if state == Disconnected {
        return;
      }
      SetLog(log.(assertsHold := log.assertsHold && outputBuffer.Contents() != "" && writing));
      if res.Wrote? {
        Flushed(res.n);
      }
    }

    /** The socket has taken `n` bytes of the output buffer, perhaps the last ones. */
    method Flushed(n: nat)
      requires Valid() && n <= |outputBuffer.Contents()|
      modifies this, outputBuffer
      ensures Valid() && outputBuffer.buffer == old(outputBuffer.buffer)
      ensures var c := old(State());
        var d := c.(log := c.log.(wire := c.log.wire + c.output[..n]), output := c.output[n..]);
        State() == if n == |c.output| then Drained(d) else d
    {
      hide Drained, State;
      Fields();
      var empty := TakeWritten(n);
      if empty {
        AllWritten();
      }
    }

    method TakeWritten(n: nat) returns (empty: bool)
      requires Valid() && n <= |outputBuffer.Contents()|
      modifies this`log, outputBuffer
      ensures Valid() && outputBuffer.buffer == old(outputBuffer.buffer)
      ensures var c := old(State());
        State() == c.(output := c.output[n..], log := c.log.(wire := c.log.wire + c.output[..n]))
      ensures empty <==> n == |old(State()).output|
    {
      log := log.(wire := log.wire + outputBuffer.Contents()[..n]);
      outputBuffer.Retrieve(n);
      empty := outputBuffer.writerIndex == outputBuffer.readerIndex;
      assert empty <==> |outputBuffer.Contents()| == 0;
    }

    method AllWritten()
      requires Valid()
      modifies this
      ensures Valid() && State() == Drained(old(State()))
    {
      writing := false;
      if state == Disconnecting {
        DoShutdownInLoop();
      }
      AnnounceWritten();
    }

    method SetReading(on: bool)
      requires Valid()
      modifies this`reading, this`registered
      ensures Valid() && State() == if on then StartRead(old(State())) else StopRead(old(State()))
      ensures reading == on && registered == (old(registered) || on)
    {
      if reading != on {
        reading := on;
        registered := registered || on;
      }
    }
  }

  // ----- what callers do -----

  /** The public calls, in the order in which a callback makes them. */
  predicate ByCaller(step: Step) {
    match step
    case SendStep(_, _) => true
    case ForeignStep(_) => true
    case ShutdownStep => true
    case ForeignShutdownStep => true
    case ForceCloseStep => true
    case StopReadStep => true
    case StartReadStep => true
    case _ => false
  }

  method Call(conn: TcpConnection, step: Step)
    requires conn.Valid() && ByCaller(step) && Enabled(conn.State(), step)
    modifies conn, conn.outputBuffer, conn.outputBuffer.buffer
    ensures conn.Valid() && conn.State() == Next(old(conn.State()), step)
    ensures conn.outputBuffer.buffer == old(conn.outputBuffer.buffer) || fresh(conn.outputBuffer.buffer)
  {
    hide Send, ForeignSend, Shutdown, ForceClose;
    match step {
      case SendStep(data, res) => conn.DoSend(data, res, true);
      case ForeignStep(data) => conn.DoSend(data, Again, false);
      case ShutdownStep => conn.DoShutdown(true);
      case ForeignShutdownStep => conn.DoShutdown(false);
      case ForceCloseStep => conn.DoForceClose();
      case StopReadStep => conn.SetReading(false);
      case StartReadStep => conn.SetReading(true);
    }
  }

  /** The calls of one callback. */
  method CallAll(conn: TcpConnection, steps: seq<Step>)
    requires conn.Valid() && CanRun(conn.State(), steps)
    requires forall i :: 0 <= i < |steps| ==> ByCaller(steps[i])
    modifies conn, conn.outputBuffer, conn.outputBuffer.buffer
    ensures conn.Valid() && conn.State() == After(old(conn.State()), steps)
    ensures conn.outputBuffer.buffer == old(conn.outputBuffer.buffer) || fresh(conn.outputBuffer.buffer)
  {
    hide Next, Enabled, TcpConnection.State;
    for i := 0 to |steps|
      invariant conn.Valid() && CanRun(conn.State(), steps[i..])
      invariant After(conn.State(), steps[i..]) == After(old(conn.State()), steps)
      invariant conn.outputBuffer.buffer == old(conn.outputBuffer.buffer) || fresh(conn.outputBuffer.buffer)
    {
      assert steps[i..][0] == steps[i] && steps[i..][1..] == steps[i + 1..];
      Call(conn, steps[i]);
    }
  }

  /** The calls of several callbacks, one after the other. */
  function Joined(calls: seq<seq<Step>>): seq<Step> {
    if calls == [] then [] else calls[0] + Joined(calls[1..])
  }

  lemma {:induction false} JoinedInOrder(a: seq<seq<Step>>, b: seq<seq<Step>>)
    ensures Joined(a + b) == Joined(a) + Joined(b)
  {
    if a == [] {
      assert a + b == b;
    } else {
      assert (a + b)[1..] == a[1..] + b;
      JoinedInOrder(a[1..], b);
    }
  }

  lemma JoinedOne(calls: seq<Step>)
    ensures Joined([calls]) == calls
  {
    assert [calls][1..] == [] && calls + [] == calls;
  }

  // ----- runs -----

  datatype Step =
    | SendStep(data: string, res: WriteResult)
    | ForeignStep(data: string)
    | ShutdownStep
    | ForeignShutdownStep
    | ForceCloseStep
    | StopReadStep
    | StartReadStep
    | HangUp
    | ReadReady(answer: B.ReadAnswer)
    | WriteReady(res: WriteResult)
    | RunTask(res: WriteResult)

  /** The poller reports registered channels only; a report may be older than the call that turned reading off. */
  predicate Enabled(c: Conn, step: Step) {
    match step
    case SendStep(data, res) => Possible(res, |data|)
    case ForeignStep(_) => true
    case ShutdownStep => c.state != Disconnected
    case ForeignShutdownStep => c.state != Disconnected
    case ForceCloseStep => true
    case StopReadStep => true
    case StartReadStep => true
    case HangUp => c.registered
    case ReadReady(_) => c.registered
    case WriteReady(res) => (c.writing || c.state == Disconnected) && Possible(res, |c.output|)
    case RunTask(res) => c.tasks != [] && (c.tasks[0].SendLater? ==> Possible(res, |c.tasks[0].data|))
  }

  /** The loop runs the oldest queued callback; the user callbacks themselves act through further steps. */
  function RunFirst(c: Conn, res: WriteResult): Conn
    requires Enabled(c, RunTask(res))
  {
    var d := c.(tasks := c.tasks[1..]);
    match c.tasks[0]
    case SendLater(data) => SendInLoop(d, data, res)
    case ForceClosed => ForceCloseInLoop(d)
    case HalfCloseLater => ShutdownInLoop(d)
    case _ => d
  }

  function Next(c: Conn, step: Step): Conn
    requires Enabled(c, step)
  {
    match step
    case SendStep(data, res) => Send(c, data, res)
    case ForeignStep(data) => ForeignSend(c, data)
    case ShutdownStep => Shutdown(c, true)
    case ForeignShutdownStep => Shutdown(c, false)
    case ForceCloseStep => ForceClose(c)
    case StopReadStep => StopRead(c)
    case StartReadStep => StartRead(c)
    case HangUp => HandleClose(c)
    case ReadReady(answer) => HandleRead(c, answer)
    case WriteReady(res) => HandleWrite(c, res)
    case RunTask(res) => RunFirst(c, res)
  }

  ghost predicate CanRun(c: Conn, steps: seq<Step>)
    decreases |steps|
  {
    steps == [] || (Enabled(c, steps[0]) && CanRun(Next(c, steps[0]), steps[1..]))
  }

  ghost function After(c: Conn, steps: seq<Step>): Conn
    requires CanRun(c, steps)
    decreases |steps|
  {
    if steps == [] then c else After(Next(c, steps[0]), steps[1..])
  }

  lemma {:induction false} RunConcat(c: Conn, a: seq<Step>, b: seq<Step>)
    ensures CanRun(c, a + b) <==> CanRun(c, a) && CanRun(After(c, a), b)
    ensures CanRun(c, a + b) ==> After(c, a + b) == After(After(c, a), b)
    decreases |a|
  {
    hide Next;
    if a == [] {
      assert a + b == b;
    } else {
      assert (a + b)[1..] == a[1..] + b;
      if Enabled(c, a[0]) {
        RunConcat(Next(c, a[0]), a[1..], b);
      }
    }
  }

  // ----- what a send and a write event change -----

  /** Only write-complete and high-water-mark callbacks have been queued. */
  ghost predicate Notices(before: seq<Task>, after: seq<Task>) {
    before <= after && forall t :: t in after[|before|..] ==> t.WriteComplete? || t.HighWater?
  }

  lemma NoNotice(tasks: seq<Task>)
    ensures Notices(tasks, tasks)
  {
  }

  lemma AnnounceNotices(c: Conn)
    ensures Announce(c) == c.(tasks := Announce(c).tasks) && Notices(c.tasks, Announce(c).tasks)
  {
  }

  lemma BufferRestNotices(c: Conn, rest: string)
    ensures var d := BufferRest(c, rest);
      && d == c.(output := c.output + rest, writing := c.writing || rest != "",
                 registered := c.registered || rest != "",
                 tasks := d.tasks)
      && Notices(c.tasks, d.tasks)
  {
    assert c.output + "" == c.output;
  }

  /** How many bytes of a send go to the socket at once. */
  function Direct(c: Conn, res: WriteResult): nat {
    if !c.writing && res.Wrote? then res.n else 0
  }

  /** What is left of a send for the output buffer; a broken connection keeps nothing. */
  function Kept(c: Conn, data: string, res: WriteResult): string
    requires Possible(res, |data|)
  {
    if !c.writing && res.Broken? then "" else data[Direct(c, res)..]
  }

  /** What a direct write leaves of the history. */
  function DirectLog(c: Conn, data: string, res: WriteResult): Log
    requires Possible(res, |data|)
  {
    var log := c.log.(assertsHold := c.log.assertsHold && c.output == "");
    match res
    case Wrote(n) => log.(wire := log.wire + data[..n])
    case Broken => log.(broken := true)
    case _ => log
  }

  lemma DirectChanges(c: Conn, data: string, res: WriteResult)
    requires Possible(res, |data|) && !c.writing
    ensures var d := DirectWrite(c, data, res); var kept := Kept(c, data, res);
      && d == c.(output := c.output + kept, writing := kept != "", registered := c.registered || kept != "",
                 tasks := d.tasks, log := DirectLog(c, data, res))
      && Notices(c.tasks, d.tasks)
  {
    hide BufferRest, Announce, Notices;
    var d := c.(log := DirectLog(c, data, res));
    match res
    case Wrote(n) =>
      AnnounceNotices(d);
      BufferRestNotices(d, data[n..]);
      assert n == |data| ==> data[n..] == "" && c.output + "" == c.output;
    case Broken =>
      NoNotice(c.tasks);
      assert c.output + "" == c.output;
    case _ =>
      BufferRestNotices(d, data);
      assert data[0..] == data;
  }

  /** What a send leaves of the history. */
  function SendLog(c: Conn, data: string, res: WriteResult): Log
    requires Possible(res, |data|)
  {
    var d := c.(log := c.log.(passed := c.log.passed + data));
    if c.writing then d.log else DirectLog(d, data, res)
  }

  lemma SendChanges(c: Conn, data: string, res: WriteResult)
    requires Possible(res, |data|) && c.state != Disconnected
    ensures var d := SendInLoop(c, data, res); var kept := Kept(c, data, res);
      && d == c.(output := c.output + kept, writing := c.writing || kept != "",
                 registered := c.registered || kept != "",
                 tasks := d.tasks, log := SendLog(c, data, res))
      && Notices(c.tasks, d.tasks)
  {
    hide BufferRest, DirectWrite, Notices;
    var d := c.(log := c.log.(passed := c.log.passed + data));
    if c.writing {
      BufferRestNotices(d, data);
      assert data[0..] == data;
    } else {
      DirectChanges(d, data, res);
    }
  }

  /** What a write event leaves of the history; the one that empties the output buffer can half-close. */
  function WriteLog(c: Conn, res: WriteResult): Log
    requires Possible(res, |c.output|)
  {
    var log := c.log.(assertsHold := c.log.assertsHold && c.output != "" && c.writing);
    if !res.Wrote? then log
    else
      var taken := log.(wire := log.wire + c.output[..res.n]);
      if Drains(c, res) && c.state == Disconnecting
      then taken.(halfCloses := log.halfCloses + 1, halfClosed := Some(taken.wire))
      else taken
  }

  function Unwritten(c: Conn, res: WriteResult): string
    requires Possible(res, |c.output|)
  {
    if res.Wrote? then c.output[res.n..] else c.output
  }

  lemma WriteChanges(c: Conn, res: WriteResult)
    requires Possible(res, |c.output|) && c.state != Disconnected
    ensures var d := HandleWrite(c, res);
      && d == c.(output := Unwritten(c, res), writing := c.writing && !Drains(c, res),
                 tasks := d.tasks, log := WriteLog(c, res))
      && Notices(c.tasks, d.tasks)
  {
    hide Announce, Notices;
    NoNotice(c.tasks);
    if Drains(c, res) {
      AnnounceNotices(c.(output := Unwritten(c, res), writing := false, log := WriteLog(c, res)));
    }
  }

  // ----- the byte stream -----

  /** The socket has been given the bytes passed on, in order, but for those still in the output buffer. */
  ghost predicate StreamInv(c: Conn) {
    && c.log.assertsHold
    && (c.state != Disconnected ==> (c.writing <==> c.output != ""))
    && (!c.log.broken ==> c.log.wire + c.output == c.log.passed)
  }

  lemma StreamGrows(wire: string, output: string, data: string, n: nat)
    requires n <= |data| && (n == 0 || output == "")
    ensures (wire + data[..n]) + (output + data[n..]) == wire + output + data
  {
    assert data == data[..n] + data[n..];
  }

  lemma SendInLoopKeeps(c: Conn, data: string, res: WriteResult)
    requires StreamInv(c) && Possible(res, |data|)
    ensures StreamInv(SendInLoop(c, data, res))
  {
    hide SendInLoop, Notices;
    if c.state == Disconnected {
      ClosedSend(c, data, res);
    } else {
      SendChanges(c, data, res);
      StreamGrows(c.log.wire, c.output, data, Direct(c, res));
      assert data[..0] == "" && c.log.wire + "" == c.log.wire;
    }
  }

  lemma ClosedSend(c: Conn, data: string, res: WriteResult)
    requires Possible(res, |data|) && c.state == Disconnected
    ensures SendInLoop(c, data, res) == c
  {
  }

  lemma HandleWriteKeeps(c: Conn, res: WriteResult)
    requires StreamInv(c) && Enabled(c, WriteReady(res))
    ensures StreamInv(HandleWrite(c, res))
  {
    hide HandleWrite, Notices;
    if c.state == Disconnected {
      ClosedWrite(c, res);
    } else {
      WriteChanges(c, res);
      if res.Wrote? {
        assert c.log.wire + c.output == (c.log.wire + c.output[..res.n]) + c.output[res.n..];
      }
    }
  }

  lemma ClosedWrite(c: Conn, res: WriteResult)
    requires Possible(res, |c.output|) && c.state == Disconnected
    ensures HandleWrite(c, res) == c
  {
  }

  lemma StepKeepsStream(c: Conn, step: Step)
    requires StreamInv(c) && Enabled(c, step)
    ensures StreamInv(Next(c, step))
  {
    hide SendInLoop, HandleWrite, RunFirst;
    match step {
      case SendStep(data, res) =>
        if c.state == Connected {
          SendInLoopKeeps(Promise(c, data), data, res);
        }
      case WriteReady(res) =>
        HandleWriteKeeps(c, res);
      case RunTask(res) =>
        TaskKeepsStream(c, res);
      case _ =>
    }
  }

  lemma TaskKeepsStream(c: Conn, res: WriteResult)
    requires StreamInv(c) && Enabled(c, RunTask(res))
    ensures StreamInv(Next(c, RunTask(res)))
  {
    hide SendInLoop;
    if c.tasks[0].SendLater? {
      SendInLoopKeeps(c.(tasks := c.tasks[1..]), c.tasks[0].data, res);
    }
  }

  lemma {:induction false} RunKeepsStream(c: Conn, steps: seq<Step>)
    requires StreamInv(c) && CanRun(c, steps)
    ensures StreamInv(After(c, steps))
    decreases |steps|
  {
    if steps != [] {
      StepKeepsStream(c, steps[0]);
      RunKeepsStream(Next(c, steps[0]), steps[1..]);
    }
  }

  /**
   Every run, with partial writes, EAGAIN and sends from any thread, hands the bytes over in order and fails no
   assertion of `sendInLoop` and `handleWrite`.
   */
  lemma StreamIsKept(mark: Option<nat>, notifies: bool, steps: seq<Step>)
    requires CanRun(Established(mark, notifies), steps)
    ensures var c := After(Established(mark, notifies), steps);
      && c.log.assertsHold
      && (c.state != Disconnected ==> (c.writing <==> c.output != ""))
      && (!c.log.broken ==> c.log.wire + c.output == c.log.passed)
  {
    RunKeepsStream(Established(mark, notifies), steps);
  }

  // ----- what was sent, in order -----

  /** The bytes that a step hands to `sendInLoop` while the connection is not closed. */
  function Handed(c: Conn, step: Step): string {
    match step
    case SendStep(data, _) => if c.state == Connected then data else ""
    case RunTask(_) =>
      if c.state != Disconnected && c.tasks != [] && c.tasks[0].SendLater? then c.tasks[0].data else ""
    case _ => ""
  }

  ghost function AllHanded(c: Conn, steps: seq<Step>): string
    requires CanRun(c, steps)
    decreases |steps|
  {
    if steps == [] then "" else Handed(c, steps[0]) + AllHanded(Next(c, steps[0]), steps[1..])
  }

  lemma SendPasses(c: Conn, data: string, res: WriteResult)
    requires Possible(res, |data|) && c.state != Disconnected
    ensures SendInLoop(c, data, res).log.passed == c.log.passed + data
  {
    hide SendInLoop, Notices;
    SendChanges(c, data, res);
  }

  lemma OthersPassNothing(c: Conn, step: Step)
    requires Enabled(c, step) && !step.SendStep? && !step.WriteReady? && !step.RunTask?
    ensures Next(c, step).log.passed == c.log.passed
  {
  }

  lemma StepPasses(c: Conn, step: Step)
    requires Enabled(c, step)
    ensures Next(c, step).log.passed == c.log.passed + Handed(c, step)
  {
    hide SendInLoop, HandleWrite, RunFirst, Notices, Shutdown, ForceClose, HandleClose, HandleRead, ForeignSend;
    assert c.log.passed + "" == c.log.passed;
    match step {
      case SendStep(data, res) =>
        if c.state == Connected {
          SendPasses(Promise(c, data), data, res);
        }
      case WriteReady(res) => WritePasses(c, res);
      case RunTask(res) => TaskPasses(c, res);
      case _ => OthersPassNothing(c, step);
    }
  }

  lemma WritePasses(c: Conn, res: WriteResult)
    requires Possible(res, |c.output|)
    ensures HandleWrite(c, res).log.passed == c.log.passed
  {
    hide HandleWrite, Notices;
    if c.state == Disconnected {
      ClosedWrite(c, res);
    } else {
      WriteChanges(c, res);
    }
  }

  lemma TaskPasses(c: Conn, res: WriteResult)
    requires Enabled(c, RunTask(res))
    ensures RunFirst(c, res).log.passed == c.log.passed + Handed(c, RunTask(res))
  {
    hide SendInLoop;
    assert c.log.passed + "" == c.log.passed;
    if c.tasks[0].SendLater? {
      if c.state == Disconnected {
        ClosedSend(c.(tasks := c.tasks[1..]), c.tasks[0].data, res);
      } else {
        SendPasses(c.(tasks := c.tasks[1..]), c.tasks[0].data, res);
      }
    }
  }

  lemma {:induction false} RunPasses(c: Conn, steps: seq<Step>)
    requires CanRun(c, steps)
    ensures After(c, steps).log.passed == c.log.passed + AllHanded(c, steps)
    decreases |steps|
  {
    hide Next, Enabled, Handed;
    if steps != [] {
      StepPasses(c, steps[0]);
      RunPasses(Next(c, steps[0]), steps[1..]);
      assert (c.log.passed + Handed(c, steps[0])) + AllHanded(Next(c, steps[0]), steps[1..])
          == c.log.passed + (Handed(c, steps[0]) + AllHanded(Next(c, steps[0]), steps[1..]));
    }
  }

  /**
   What is on the wire, with what the output buffer still holds, is what the callers sent: each send's own bytes, those
   of other threads when their turn in the queue comes.
   */
  lemma StreamIsWhatWasSent(mark: Option<nat>, notifies: bool, steps: seq<Step>)
    requires CanRun(Established(mark, notifies), steps)
    ensures var c := After(Established(mark, notifies), steps);
      !c.log.broken ==> c.log.wire + c.output == AllHanded(Established(mark, notifies), steps)
  {
    StreamIsKept(mark, notifies, steps);
    RunPasses(Established(mark, notifies), steps);
    var all := AllHanded(Established(mark, notifies), steps);
    assert "" + all == all;
  }

  /** What another thread sends waits at the end of the queue. */
  lemma ForeignSendWaits(c: Conn, data: string)
    ensures ForeignSend(c, data).tasks == if c.state == Connected then c.tasks + [SendLater(data)] else c.tasks
  {
  }

  // ----- the flags -----

  lemma SendFlags(c: Conn, data: string, res: WriteResult)
    requires Possible(res, |data|)
    ensures var log := SendInLoop(c, data, res).log;
      && log.assertsHold == (c.log.assertsHold && (c.state != Disconnected && !c.writing ==> c.output == ""))
      && log.eventsHold == c.log.eventsHold
  {
    hide SendInLoop, Notices;
    if c.state == Disconnected {
      ClosedSend(c, data, res);
    } else {
      SendChanges(c, data, res);
    }
  }

  lemma WriteFlags(c: Conn, res: WriteResult)
    requires Possible(res, |c.output|)
    ensures var log := HandleWrite(c, res).log;
      && log.assertsHold == (c.log.assertsHold && (c.state != Disconnected ==> c.output != "" && c.writing))
      && log.eventsHold == c.log.eventsHold
  {
    hide HandleWrite, Notices;
    if c.state == Disconnected {
      ClosedWrite(c, res);
    } else {
      WriteChanges(c, res);
    }
  }

  /** The step is a send that reaches the loop. */
  predicate Sends(c: Conn, step: Step) {
    || (step.SendStep? && c.state == Connected)
    || (step.RunTask? && c.tasks != [] && c.tasks[0].SendLater? && c.state != Disconnected)
  }

  /** The two flags tell exactly whether an assertion of the source would have failed in this step. */
  lemma FlagsTell(c: Conn, step: Step)
    requires Enabled(c, step)
    ensures Next(c, step).log.assertsHold <==>
      && c.log.assertsHold
      && (Sends(c, step) && !c.writing ==> c.output == "")
      && (step.WriteReady? && c.state != Disconnected ==> c.output != "" && c.writing)
    ensures Next(c, step).log.eventsHold <==>
      c.log.eventsHold && (step.HangUp? || step.ReadReady? ==> c.state != Disconnected)
  {
    hide SendInLoop, HandleWrite, RunFirst;
    match step {
      case SendStep(data, res) => SendFlags(Promise(c, data), data, res);
      case WriteReady(res) => WriteFlags(c, res);
      case RunTask(res) => TaskFlags(c, res);
      case _ =>
    }
  }

  lemma TaskFlags(c: Conn, res: WriteResult)
    requires Enabled(c, RunTask(res))
    ensures var log := RunFirst(c, res).log;
      && log.assertsHold == (c.log.assertsHold && (Sends(c, RunTask(res)) && !c.writing ==> c.output == ""))
      && log.eventsHold == c.log.eventsHold
  {
    hide SendInLoop;
    if c.tasks[0].SendLater? {
      SendFlags(c.(tasks := c.tasks[1..]), c.tasks[0].data, res);
    }
  }

  // ----- closing once -----

  /** Sends and write events leave alone what the life cycle is about. */
  ghost predicate SameLife(c: Conn, d: Conn) {
    && d.state == c.state && d.log.closes == c.log.closes && d.log.eventsHold == c.log.eventsHold
    && (c.state == Disconnected ==> d.registered == c.registered)
    && (c.registered ==> d.registered)
  }

  lemma SendKeepsLife(c: Conn, data: string, res: WriteResult)
    requires Possible(res, |data|)
    ensures SameLife(c, SendInLoop(c, data, res))
  {
    if c.state != Disconnected {
      SendChanges(c, data, res);
    }
  }

  lemma WriteKeepsLife(c: Conn, res: WriteResult)
    requires Possible(res, |c.output|)
    ensures SameLife(c, HandleWrite(c, res))
  {
    if c.state != Disconnected {
      WriteChanges(c, res);
    }
  }

  /** A step that changes none of it. */
  predicate Harmless(c: Conn, step: Step) {
    match step
    case SendStep(_, _) => true
    case ForeignStep(_) => true
    case StopReadStep => true
    case WriteReady(_) => true
    case RunTask(_) => c.tasks != [] && !c.tasks[0].ForceClosed?
    case _ => false
  }

  lemma HarmlessStep(c: Conn, step: Step)
    requires Enabled(c, step) && Harmless(c, step)
    ensures SameLife(c, Next(c, step))
  {
    hide SendInLoop, HandleWrite;
    match step {
      case SendStep(data, res) => SendKeepsLife(Promise(c, data), data, res);
      case WriteReady(res) => WriteKeepsLife(c, res);
      case RunTask(res) =>
        if c.tasks[0].SendLater? {
          SendKeepsLife(c.(tasks := c.tasks[1..]), c.tasks[0].data, res);
        }
      case _ =>
    }
  }

  /** States only move forward, whoever acts. */
  lemma StateMovesForward(c: Conn, step: Step)
    requires Enabled(c, step)
    ensures c.state == Disconnected ==> Next(c, step).state == Disconnected
    ensures c.state == Disconnecting ==> Next(c, step).state != Connected
  {
    if Harmless(c, step) {
      HarmlessStep(c, step);
    }
  }

  /** While it is open, and after one close as long as nothing is registered again. */
  ghost predicate ClosedCleanly(c: Conn) {
    && c.log.eventsHold
    && c.log.closes == (if c.state == Disconnected then 1 else 0)
    && (c.registered <==> c.state != Disconnected)
  }

  /** Reading was turned on again after the close, or has already led to a second close or a failed assertion. */
  ghost predicate Reopened(c: Conn) {
    && c.state == Disconnected && c.log.closes >= 1
    && (c.registered || c.log.closes > 1 || !c.log.eventsHold)
  }

  /** Some step of this run turns reading on after the connection was closed. */
  ghost predicate ReadsAfterClose(c: Conn, steps: seq<Step>)
    requires CanRun(c, steps)
    decreases |steps|
  {
    steps != [] &&
    ((c.state == Disconnected && steps[0].StartReadStep?) || ReadsAfterClose(Next(c, steps[0]), steps[1..]))
  }

  /** One close at most and no failed event assertion. */
  predicate Unharmed(c: Conn) {
    c.log.closes <= 1 && c.log.eventsHold
  }

  /** And no event that could bring a second one or fail one. */
  ghost predicate Settled(c: Conn) {
    Unharmed(c) && forall step :: Enabled(c, step) ==> Unharmed(Next(c, step))
  }

  lemma StepClosesOnce(c: Conn, step: Step)
    requires ClosedCleanly(c) && Enabled(c, step)
    ensures var d := Next(c, step);
      Unharmed(d) && if c.state == Disconnected && step.StartReadStep? then Reopened(d) else ClosedCleanly(d)
  {
    if Harmless(c, step) {
      HarmlessStep(c, step);
    }
  }

  lemma StepStaysReopened(c: Conn, step: Step)
    requires Reopened(c) && Enabled(c, step)
    ensures Reopened(Next(c, step))
  {
    if Harmless(c, step) {
      HarmlessStep(c, step);
    }
  }

  lemma {:induction false} RunStaysReopened(c: Conn, steps: seq<Step>)
    requires Reopened(c) && CanRun(c, steps)
    ensures Reopened(After(c, steps))
    decreases |steps|
  {
    if steps != [] {
      StepStaysReopened(c, steps[0]);
      RunStaysReopened(Next(c, steps[0]), steps[1..]);
    }
  }

  lemma {:induction false} RunClosesOnce(c: Conn, steps: seq<Step>)
    requires ClosedCleanly(c) && CanRun(c, steps)
    ensures if ReadsAfterClose(c, steps) then Reopened(After(c, steps)) else ClosedCleanly(After(c, steps))
    decreases |steps|
  {
    if steps != [] {
      StepClosesOnce(c, steps[0]);
      if c.state == Disconnected && steps[0].StartReadStep? {
        RunStaysReopened(Next(c, steps[0]), steps[1..]);
      } else {
        RunClosesOnce(Next(c, steps[0]), steps[1..]);
      }
    }
  }

  /**
   The close callback runs once at most, and no event assertion fails, in a run that does not read after the close.
   */
  lemma ClosedOnce(mark: Option<nat>, notifies: bool, steps: seq<Step>)
    requires CanRun(Established(mark, notifies), steps) && !ReadsAfterClose(Established(mark, notifies), steps)
    ensures var c := After(Established(mark, notifies), steps);
      c.log.eventsHold && c.log.closes == if c.state == Disconnected then 1 else 0
  {
    RunClosesOnce(Established(mark, notifies), steps);
  }

  /**
   `startRead` does not ask whether the connection is still open. Exactly the runs that call it after the close
   have closed twice or failed an assertion, or can do so with the next event.
   */
  lemma SettledIffNoReadAfterClose(mark: Option<nat>, notifies: bool, steps: seq<Step>)
    requires CanRun(Established(mark, notifies), steps)
    ensures Settled(After(Established(mark, notifies), steps)) <==> !ReadsAfterClose(Established(mark, notifies), steps)
  {
    var c := After(Established(mark, notifies), steps);
    RunClosesOnce(Established(mark, notifies), steps);
    if ReadsAfterClose(Established(mark, notifies), steps) {
      assert c.registered ==> Enabled(c, HangUp) && !Unharmed(Next(c, HangUp));
    } else {
      forall step | Enabled(c, step) ensures Unharmed(Next(c, step)) {
        StepClosesOnce(c, step);
      }
    }
  }

  ghost predicate TurnsReadingOn(steps: seq<Step>) {
    exists s :: s in steps && s.StartReadStep?
  }

  lemma TurnsOnFirst(steps: seq<Step>)
    requires steps != []
    ensures TurnsReadingOn(steps) <==> steps[0].StartReadStep? || TurnsReadingOn(steps[1..])
  {
    assert steps == [steps[0]] + steps[1..];
  }

  lemma ClosedStep(c: Conn, step: Step)
    requires c.state == Disconnected && Enabled(c, step)
    ensures var d := Next(c, step);
      && d.state == Disconnected && d.log.closes >= c.log.closes
      && (d.log.closes == c.log.closes ==> (d.registered <==> c.registered || step.StartReadStep?))
  {
    if Harmless(c, step) {
      HarmlessStep(c, step);
    }
  }

  lemma {:induction false} ClosedRun(c: Conn, steps: seq<Step>)
    requires c.state == Disconnected && CanRun(c, steps)
    ensures var d := After(c, steps);
      && d.log.closes >= c.log.closes
      && (d.log.closes == c.log.closes ==> (d.registered <==> c.registered || TurnsReadingOn(steps)))
    decreases |steps|
  {
    if steps != [] {
      ClosedStep(c, steps[0]);
      ClosedRun(Next(c, steps[0]), steps[1..]);
      TurnsOnFirst(steps);
    }
  }

  /** After a close, a further close event is possible exactly if reading has been turned on again since. */
  lemma CloseAgainIffReadAgain(mark: Option<nat>, notifies: bool, steps: seq<Step>, close: Step, later: seq<Step>)
    requires CanRun(Established(mark, notifies), steps)
    requires var c := After(Established(mark, notifies), steps);
      && Enabled(c, close) && Next(c, close).log.closes > c.log.closes
      && CanRun(Next(c, close), later)
      && After(Next(c, close), later).log.closes == Next(c, close).log.closes
    ensures var c := Next(After(Established(mark, notifies), steps), close);
      Enabled(After(c, later), HangUp) <==> TurnsReadingOn(later)
  {
    var c := After(Established(mark, notifies), steps);
    CloseUnregisters(c, close);
    hide Next, Enabled;
    ClosedRun(Next(c, close), later);
    RegisteredHangsUp(After(Next(c, close), later));
  }

  lemma CloseUnregisters(c: Conn, close: Step)
    requires Enabled(c, close) && Next(c, close).log.closes > c.log.closes
    ensures Next(c, close).state == Disconnected && !Next(c, close).registered
  {
    if Harmless(c, close) {
      HarmlessStep(c, close);
    }
  }

  lemma RegisteredHangsUp(c: Conn)
    ensures Enabled(c, HangUp) <==> c.registered
  {
  }

  // ----- closing in one direction -----

  /** Sends and shutdowns come from the loop thread. */
  ghost predicate NoForeign(steps: seq<Step>) {
    forall s :: s in steps ==> !s.ForeignStep? && !s.ForeignShutdownStep?
  }

  /** None of the queued callbacks comes from another thread. */
  ghost predicate OwnTasks(tasks: seq<Task>) {
    forall t :: t in tasks ==> !t.SendLater? && !t.HalfCloseLater?
  }

  lemma NoticesAreOwn(before: seq<Task>, after: seq<Task>)
    requires OwnTasks(before) && Notices(before, after)
    ensures OwnTasks(after)
  {
    assert after == before + after[|before|..];
  }

  ghost predicate HalfCloseInv(c: Conn) {
    && StreamInv(c)
    && OwnTasks(c.tasks)
    && c.log.halfCloses == (if c.log.halfClosed.Some? then 1 else 0)
    && (c.log.halfClosed.Some? ==> c.state != Connected && !c.writing)
    && c.log.promised == |c.log.passed|
    && (c.log.halfClosed.Some? && !c.log.broken ==> c.log.halfClosed.value == c.log.passed)
  }

  lemma SendHalfCloses(c: Conn, data: string, res: WriteResult)
    requires HalfCloseInv(c) && Possible(res, |data|) && c.state == Connected
    ensures HalfCloseInv(Send(c, data, res))
  {
    hide SendInLoop, OwnTasks, Notices;
    SendInLoopKeeps(Promise(c, data), data, res);
    SendChanges(Promise(c, data), data, res);
    NoticesAreOwn(c.tasks, Send(c, data, res).tasks);
  }

  lemma WriteHalfCloses(c: Conn, res: WriteResult)
    requires HalfCloseInv(c) && Enabled(c, WriteReady(res))
    ensures HalfCloseInv(HandleWrite(c, res)) && HandleWrite(c, res).log.passed == c.log.passed
  {
    hide HandleWrite, OwnTasks, Notices;
    HandleWriteKeeps(c, res);
    if c.state == Disconnected {
      ClosedWrite(c, res);
    } else {
      WriteChanges(c, res);
      NoticesAreOwn(c.tasks, HandleWrite(c, res).tasks);
      var d := HandleWrite(c, res);
      assert Drains(c, res) ==> d.log.wire + "" == d.log.wire;
    }
  }

  lemma ShutdownHalfCloses(c: Conn)
    requires HalfCloseInv(c) && c.state != Disconnected
    ensures HalfCloseInv(Shutdown(c, true)) && Shutdown(c, true).log.passed == c.log.passed
  {
    assert c.log.wire + "" == c.log.wire;
  }

  lemma StepHalfCloses(c: Conn, step: Step)
    requires HalfCloseInv(c) && Enabled(c, step) && !step.ForeignStep? && !step.ForeignShutdownStep?
    ensures HalfCloseInv(Next(c, step))
    ensures c.state != Connected ==> Next(c, step).log.passed == c.log.passed
  {
    hide SendInLoop, HandleWrite, ShutdownInLoop, RunFirst, OwnTasks;
    match step {
      case SendStep(data, res) =>
        if c.state == Connected {
          SendHalfCloses(c, data, res);
        }
      case ShutdownStep => ShutdownHalfCloses(c);
      case WriteReady(res) => WriteHalfCloses(c, res);
      case RunTask(res) => OwnTaskHalfCloses(c, res);
      case ForceCloseStep => OwnMore(c.tasks, ForceClosed);
      case _ =>
    }
  }

  lemma OwnMore(tasks: seq<Task>, t: Task)
    requires OwnTasks(tasks) && !t.SendLater? && !t.HalfCloseLater?
    ensures OwnTasks(tasks + [t])
  {
  }

  lemma OwnTaskHalfCloses(c: Conn, res: WriteResult)
    requires HalfCloseInv(c) && Enabled(c, RunTask(res))
    ensures HalfCloseInv(Next(c, RunTask(res))) && Next(c, RunTask(res)).log.passed == c.log.passed
  {
    hide OwnTasks;
    OwnFirst(c.tasks);
  }

  lemma OwnFirst(tasks: seq<Task>)
    requires OwnTasks(tasks) && tasks != []
    ensures !tasks[0].SendLater? && !tasks[0].HalfCloseLater? && OwnTasks(tasks[1..])
  {
    assert tasks[0] in tasks && forall t :: t in tasks[1..] ==> t in tasks;
  }

  lemma {:induction false} RunHalfCloses(c: Conn, steps: seq<Step>)
    requires HalfCloseInv(c) && CanRun(c, steps) && NoForeign(steps)
    ensures HalfCloseInv(After(c, steps))
    ensures c.state != Connected ==> After(c, steps).log.passed == c.log.passed
    decreases |steps|
  {
    if steps != [] {
      assert steps[0] in steps && forall s :: s in steps[1..] ==> s in steps;
      StepHalfCloses(c, steps[0]);
      StateMovesForward(c, steps[0]);
      RunHalfCloses(Next(c, steps[0]), steps[1..]);
    }
  }

  /** With callers on the loop thread the half-close happens at most once, and only when nothing is left to write. */
  lemma HalfClosedOnce(mark: Option<nat>, notifies: bool, steps: seq<Step>)
    requires CanRun(Established(mark, notifies), steps) && NoForeign(steps)
    ensures var c := After(Established(mark, notifies), steps);
      && c.log.halfCloses <= 1
      && (c.log.halfCloses == 1 && c.state != Disconnected ==> c.output == "")
  {
    RunHalfCloses(Established(mark, notifies), steps);
  }

  /**
   With sends from the loop thread, every byte accepted before `shutdown` is on the wire at the half-close, and
   none follows.
   */
  lemma HalfCloseComesLast(mark: Option<nat>, notifies: bool, before: seq<Step>, after: seq<Step>)
    requires CanRun(Established(mark, notifies), before) && NoForeign(before) && NoForeign(after)
    requires After(Established(mark, notifies), before).state == Connected
    requires CanRun(Shutdown(After(Established(mark, notifies), before), true), after)
    ensures var c := After(Established(mark, notifies), before);
      var d := After(Shutdown(c, true), after);
      && d.log.passed == c.log.passed
      && (d.log.halfClosed.Some? && !d.log.broken ==> d.log.halfClosed.value == c.log.passed)
  {
    var c := After(Established(mark, notifies), before);
    RunHalfCloses(Established(mark, notifies), before);
    StepHalfCloses(c, ShutdownStep);
    RunHalfCloses(Shutdown(c, true), after);
  }

  // ----- sends from other threads -----

  function BytesOf(t: Task): nat {
    match t
    case SendLater(data) => |data|
    case _ => 0
  }

  function QueuedBytes(tasks: seq<Task>): nat {
    if tasks == [] then 0 else QueuedBytes(tasks[..|tasks| - 1]) + BytesOf(tasks[|tasks| - 1])
  }

  lemma {:induction false} QueuedRest(tasks: seq<Task>)
    requires tasks != []
    ensures QueuedBytes(tasks) == QueuedBytes(tasks[1..]) + BytesOf(tasks[0])
  {
    var k := |tasks| - 1;
    if k > 0 {
      QueuedRest(tasks[..k]);
      assert tasks[1..][..k - 1] == tasks[..k][1..];
    } else {
      assert tasks[1..] == [] && tasks[..k] == [];
    }
  }

  lemma QueuedMore(tasks: seq<Task>, t: Task)
    ensures QueuedBytes(tasks + [t]) == QueuedBytes(tasks) + BytesOf(t)
  {
    assert (tasks + [t])[..|tasks|] == tasks;
  }

  lemma {:induction false} NoticesQueueNothing(before: seq<Task>, after: seq<Task>)
    requires Notices(before, after)
    ensures QueuedBytes(after) == QueuedBytes(before)
    decreases |after|
  {
    var k := |after| - 1;
    if |after| > |before| {
      assert after[..k][|before|..] == after[|before|..][..k - |before|];
      assert after[|before|..][k - |before|] == after[k];
      NoticesQueueNothing(before, after[..k]);
    } else {
      assert after == before;
    }
  }

  ghost predicate PromiseInv(c: Conn) {
    StreamInv(c) && (c.state != Disconnected ==> c.log.promised == |c.log.passed| + QueuedBytes(c.tasks))
  }

  lemma SendKeepsPromise(c: Conn, data: string, res: WriteResult)
    requires Possible(res, |data|) && c.state != Disconnected
    ensures var d := SendInLoop(c, data, res);
      && d.state == c.state && d.log.promised == c.log.promised && d.log.passed == c.log.passed + data
      && d.log.halfCloses == c.log.halfCloses && QueuedBytes(d.tasks) == QueuedBytes(c.tasks)
  {
    hide QueuedBytes, SendInLoop, Notices;
    SendChanges(c, data, res);
    NoticesQueueNothing(c.tasks, SendInLoop(c, data, res).tasks);
  }

  lemma WriteKeepsPromise(c: Conn, res: WriteResult)
    requires Possible(res, |c.output|)
    ensures var d := HandleWrite(c, res);
      && d.state == c.state && d.log.promised == c.log.promised && d.log.passed == c.log.passed
      && QueuedBytes(d.tasks) == QueuedBytes(c.tasks)
  {
    hide QueuedBytes, HandleWrite, Notices;
    if c.state == Disconnected {
      ClosedWrite(c, res);
    } else {
      WriteChanges(c, res);
      NoticesQueueNothing(c.tasks, HandleWrite(c, res).tasks);
    }
  }

  lemma TaskKeepsPromise(c: Conn, res: WriteResult)
    requires PromiseInv(c) && Enabled(c, RunTask(res))
    ensures PromiseInv(Next(c, RunTask(res)))
  {
    hide QueuedBytes, SendInLoop;
    StepKeepsStream(c, RunTask(res));
    QueuedRest(c.tasks);
    if c.tasks[0].SendLater? {
      if c.state != Disconnected {
        SendKeepsPromise(c.(tasks := c.tasks[1..]), c.tasks[0].data, res);
      } else {
        SendKeepsLife(c.(tasks := c.tasks[1..]), c.tasks[0].data, res);
      }
    }
  }

  lemma StepKeepsPromise(c: Conn, step: Step)
    requires PromiseInv(c) && Enabled(c, step)
    ensures PromiseInv(Next(c, step))
  {
    hide QueuedBytes, SendInLoop, HandleWrite, RunFirst;
    StepKeepsStream(c, step);
    match step {
      case SendStep(data, res) =>
        if c.state == Connected {
          SendKeepsPromise(Promise(c, data), data, res);
        }
      case ForeignStep(data) => QueuedMore(c.tasks, SendLater(data));
      case ForeignShutdownStep => QueuedMore(c.tasks, HalfCloseLater);
      case ForceCloseStep => QueuedMore(c.tasks, ForceClosed);
      case WriteReady(res) => WriteKeepsPromise(c, res);
      case RunTask(res) => TaskKeepsPromise(c, res);
      case _ =>
    }
  }

  lemma {:induction false} RunKeepsPromise(c: Conn, steps: seq<Step>)
    requires PromiseInv(c) && CanRun(c, steps)
    ensures PromiseInv(After(c, steps))
    decreases |steps|
  {
    if steps != [] {
      StepKeepsPromise(c, steps[0]);
      RunKeepsPromise(Next(c, steps[0]), steps[1..]);
    }
  }

  /**
   With sends and shutdowns from any thread a half-close can overtake bytes already promised. It does so exactly
   when a send of at least one byte is still queued on the loop.
   */
  lemma HalfCloseKeepsPromiseIffNoneQueued(mark: Option<nat>, notifies: bool, steps: seq<Step>, step: Step)
    requires CanRun(Established(mark, notifies), steps)
    requires var c := After(Established(mark, notifies), steps);
      && Enabled(c, step) && !Next(c, step).log.broken
      && Next(c, step).log.halfCloses > c.log.halfCloses
    ensures var c := After(Established(mark, notifies), steps);
      var log := Next(c, step).log;
      log.halfClosed.Some? && (|log.halfClosed.value| == log.promised <==> QueuedBytes(c.tasks) == 0)
  {
    assert PromiseInv(Established(mark, notifies));
    RunKeepsPromise(Established(mark, notifies), steps);
    HalfCloseStep(After(Established(mark, notifies), steps), step);
  }

  lemma HalfCloseStep(c: Conn, step: Step)
    requires PromiseInv(c) && Enabled(c, step)
    requires !Next(c, step).log.broken && Next(c, step).log.halfCloses > c.log.halfCloses
    ensures var log := Next(c, step).log;
      log.halfClosed.Some? && (|log.halfClosed.value| == log.promised <==> QueuedBytes(c.tasks) == 0)
  {
    hide QueuedBytes, SendInLoop, HandleWrite, RunFirst;
    match step {
      case SendStep(data, res) =>
        if c.state == Connected {
          SendKeepsPromise(Promise(c, data), data, res);
        }
      case WriteReady(res) =>
        if c.state == Disconnected {
          ClosedWrite(c, res);
        } else {
          WriteChanges(c, res);
          assert c.output[..|c.output|] == c.output;
        }
      case RunTask(res) => HalfCloseTask(c, res);
      case ShutdownStep => NothingToWrite(c);
      case _ =>
    }
  }

  lemma NothingToWrite(c: Conn)
    ensures c.output == "" ==> c.log.wire + c.output == c.log.wire
  {
  }

  lemma HalfCloseTask(c: Conn, res: WriteResult)
    requires PromiseInv(c) && Enabled(c, RunTask(res))
    requires !Next(c, RunTask(res)).log.broken && Next(c, RunTask(res)).log.halfCloses > c.log.halfCloses
    ensures var log := Next(c, RunTask(res)).log;
      log.halfClosed.Some? && (|log.halfClosed.value| == log.promised <==> QueuedBytes(c.tasks) == 0)
  {
    hide QueuedBytes, SendInLoop;
    if c.tasks[0].SendLater? {
      if c.state == Disconnected {
        ClosedSend(c.(tasks := c.tasks[1..]), c.tasks[0].data, res);
      } else {
        SendKeepsPromise(c.(tasks := c.tasks[1..]), c.tasks[0].data, res);
      }
    }
    NothingToWrite(c);
  }

  /** Such a run: a byte sent from another thread, then `shutdown` on the loop thread. */
  lemma HalfCloseCanOvertake()
    ensures var c := Next(Established(None, false), ForeignStep("x"));
      var d := Next(c, ShutdownStep);
      d.log.halfClosed == Some("") && d.log.promised == 1
  {
  }
}
