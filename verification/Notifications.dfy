/** When a connection queues its callbacks: the high-water mark's, and the one for a write that is complete. */
module Notifications {
  import opened Common
  import opened TcpConnection

  /** The output crosses the mark from below. */
  predicate Crosses(mark: Option<nat>, before: nat, after: nat) {
    mark.Some? && before < mark.value <= after
  }

  /** This send goes to the socket at once, and all of it. */
  predicate SentAtOnce(c: Conn, data: string, res: WriteResult) {
    c.state != Disconnected && !c.writing && res == Wrote(|data|)
  }

  lemma RestNotifies(c: Conn, rest: string)
    ensures var d := BufferRest(c, rest);
      && d.output == c.output + rest
      && d.tasks == c.tasks + if c.mark.Some? && |c.output| < c.mark.value <= |d.output|
                              then [HighWater(|d.output|)] else []
  {
    assert c.output + "" == c.output && c.tasks + [] == c.tasks;
  }

  lemma WrittenNotifies(c: Conn)
    ensures Announce(c).tasks == c.tasks + if c.notifies then [WriteComplete] else []
    ensures Announce(c).output == c.output
  {
    assert c.tasks + [] == c.tasks;
  }

  lemma TakenNotifies(c: Conn, data: string, n: nat)
    requires n <= |data|
    ensures var d := Taken(c, data, n);
      d.tasks == c.tasks
        + (if n == |data| && c.notifies then [WriteComplete] else [])
        + (if c.mark.Some? && |c.output| < c.mark.value <= |d.output| then [HighWater(|d.output|)] else [])
  {
    hide BufferRest, Announce;
    var d := c.(log := c.log.(wire := c.log.wire + data[..n]));
    if n == |data| {
      WrittenNotifies(d);
    } else {
      RestNotifies(d, data[n..]);
    }
  }

  lemma DirectNotifies(c: Conn, data: string, res: WriteResult)
    requires Possible(res, |data|) && c.state != Disconnected && !c.writing
    ensures var d := DirectWrite(c, data, res);
      d.tasks == c.tasks
        + (if res == Wrote(|data|) && c.notifies then [WriteComplete] else [])
        + (if c.mark.Some? && |c.output| < c.mark.value <= |d.output| then [HighWater(|d.output|)] else [])
  {
    hide BufferRest, Taken;
    assert c.tasks + [] == c.tasks;
    var d := c.(log := c.log.(assertsHold := c.log.assertsHold && c.output == ""));
    match res
    case Wrote(n) => TakenNotifies(d, data, n);
    case Broken =>
    case _ => RestNotifies(d, data);
  }

  /**
   A send, whatever is queued already: the mark is reported exactly if it takes the output from below the mark to it or
   beyond, and completion exactly if all bytes were taken at once.
   */
  lemma SendNotifies(c: Conn, data: string, res: WriteResult)
    requires Possible(res, |data|)
    ensures var d := SendInLoop(c, data, res);
      d.tasks == c.tasks
        + (if c.state != Disconnected && !c.writing && res == Wrote(|data|) && c.notifies then [WriteComplete] else [])
        + (if c.mark.Some? && |c.output| < c.mark.value <= |d.output| then [HighWater(|d.output|)] else [])
  {
    hide BufferRest, Announce;
    assert c.tasks + [] == c.tasks && c.output + "" == c.output;
    if c.state != Disconnected {
      var d := c.(log := c.log.(passed := c.log.passed + data));
      if c.writing {
        RestNotifies(d, data);
      } else {
        DirectNotifies(d, data, res);
      }
    }
  }

  /** A write event reports completion exactly if it leaves nothing, and never the mark. */
  lemma WriteNotifies(c: Conn, res: WriteResult)
    requires Possible(res, |c.output|)
    ensures var d := HandleWrite(c, res);
      && d.tasks == c.tasks
        + (if c.state != Disconnected && res == Wrote(|c.output|) && c.notifies then [WriteComplete] else [])
      && |d.output| <= |c.output|
  {
    assert c.tasks + [] == c.tasks;
  }

  // ----- every step -----

  /** A task that the step takes from the front of the queue is not one it adds. */
  function Remaining(c: Conn, step: Step): seq<Task> {
    if step.RunTask? && c.tasks != [] then c.tasks[1..] else c.tasks
  }

  /** What the step puts at the back of the queue. */
  function Added(c: Conn, step: Step): seq<Task>
    requires Enabled(c, step)
  {
    var before, after := Remaining(c, step), Next(c, step).tasks;
    if |before| <= |after| then after[|before|..] else []
  }

  /** The step's write leaves nothing to write: a send taken at once, or the write event that empties the output. */
  predicate WritesLast(c: Conn, step: Step) {
    match step
    case SendStep(data, res) => c.state == Connected && SentAtOnce(c, data, res)
    case RunTask(res) => c.tasks != [] && c.tasks[0].SendLater? && SentAtOnce(c, c.tasks[0].data, res)
    case WriteReady(res) => c.state != Disconnected && res == Wrote(|c.output|)
    case _ => false
  }

  /** A send taken at once leaves the output as it is. */
  lemma SentAll(c: Conn, data: string, res: WriteResult)
    requires Possible(res, |data|)
    ensures SentAtOnce(c, data, res) ==> SendInLoop(c, data, res).output == c.output
  {
  }

  lemma StepFrame(c: Conn, step: Step)
    requires Enabled(c, step)
    ensures Next(c, step).mark == c.mark && Next(c, step).notifies == c.notifies
    ensures |Next(c, step).output| < |c.output| ==> step.WriteReady?
  {
    hide SendInLoop, HandleWrite, RunFirst, Notices;
    match step {
      case SendStep(data, res) => SendFrame(Promise(c, data), data, res);
      case WriteReady(res) =>
        if c.state != Disconnected {
          WriteChanges(c, res);
        } else {
          ClosedWrite(c, res);
        }
      case RunTask(res) => TaskFrame(c, res);
      case _ =>
    }
  }

  lemma SendFrame(c: Conn, data: string, res: WriteResult)
    requires Possible(res, |data|)
    ensures var d := SendInLoop(c, data, res);
      d.mark == c.mark && d.notifies == c.notifies && |c.output| <= |d.output|
  {
    hide SendInLoop, Notices;
    if c.state == Disconnected {
      ClosedSend(c, data, res);
    } else {
      SendChanges(c, data, res);
    }
  }

  lemma TaskFrame(c: Conn, res: WriteResult)
    requires Enabled(c, RunTask(res))
    ensures var d := RunFirst(c, res);
      d.mark == c.mark && d.notifies == c.notifies && |c.output| <= |d.output|
  {
    hide SendInLoop;
    if c.tasks[0].SendLater? {
      SendFrame(c.(tasks := c.tasks[1..]), c.tasks[0].data, res);
    }
  }

  /** Behind the tasks that stay there is one notice at most, the right one. */
  ghost predicate Notified(c: Conn, d: Conn, before: seq<Task>, last: bool) {
    && |before| <= |d.tasks|
    && var added := d.tasks[|before|..];
       && d.tasks == before + added && |added| <= 1
       && (forall n :: HighWater(n) in added <==> Crosses(c.mark, |c.output|, |d.output|) && n == |d.output|)
       && (WriteComplete in added <==> c.notifies && last)
  }

  lemma Behind(c: Conn, d: Conn, before: seq<Task>, last: bool)
    requires !(last && c.notifies && Crosses(c.mark, |c.output|, |d.output|))
    requires d.tasks == before + (if last && c.notifies then [WriteComplete] else [])
      + (if Crosses(c.mark, |c.output|, |d.output|) then [HighWater(|d.output|)] else [])
    ensures Notified(c, d, before, last)
  {
    assert d.tasks[|before|..] == (if last && c.notifies then [WriteComplete] else [])
      + (if Crosses(c.mark, |c.output|, |d.output|) then [HighWater(|d.output|)] else []);
  }

  lemma SendBehind(c: Conn, data: string, res: WriteResult)
    requires Possible(res, |data|)
    ensures Notified(c, SendInLoop(c, data, res), c.tasks, SentAtOnce(c, data, res))
  {
    hide SendInLoop, Notified;
    SendNotifies(c, data, res);
    SentAll(c, data, res);
    Behind(c, SendInLoop(c, data, res), c.tasks, SentAtOnce(c, data, res));
  }

  lemma WriteBehind(c: Conn, res: WriteResult)
    requires Possible(res, |c.output|)
    ensures Notified(c, HandleWrite(c, res), c.tasks, c.state != Disconnected && res == Wrote(|c.output|))
  {
    hide HandleWrite, Notified;
    WriteNotifies(c, res);
    var d := HandleWrite(c, res);
    assert c.tasks + (if c.state != Disconnected && res == Wrote(|c.output|) && c.notifies then [WriteComplete] else [])
      + [] == d.tasks;
    Behind(c, d, c.tasks, c.state != Disconnected && res == Wrote(|c.output|));
  }

  lemma TaskBehind(c: Conn, res: WriteResult)
    requires Enabled(c, RunTask(res))
    ensures Notified(c, RunFirst(c, res), c.tasks[1..], WritesLast(c, RunTask(res)))
  {
    hide SendInLoop;
    if c.tasks[0].SendLater? {
      SendBehind(c.(tasks := c.tasks[1..]), c.tasks[0].data, res);
    }
  }

  lemma SameTasks(c: Conn, d: Conn)
    requires d.tasks == c.tasks && d.output == c.output
    ensures Notified(c, d, c.tasks, false)
  {
  }

  lemma OtherTask(c: Conn, d: Conn, t: Task)
    requires d.tasks == c.tasks + [t] && !t.HighWater? && !t.WriteComplete? && d.output == c.output
    ensures Notified(c, d, c.tasks, false)
  {
    assert d.tasks[|c.tasks|..] == [t];
  }

  lemma OthersNotifyNothing(c: Conn, step: Step)
    requires Enabled(c, step) && !step.SendStep? && !step.WriteReady? && !step.RunTask?
    ensures Notified(c, Next(c, step), c.tasks, false)
  {
    hide Notified;
    var d := Next(c, step);
    if d.tasks == c.tasks {
      SameTasks(c, d);
    } else {
      OtherTask(c, d, d.tasks[|c.tasks|]);
    }
  }

  lemma ClosedNotifiesNothing(c: Conn, data: string, res: WriteResult)
    requires Possible(res, |data|) && c.state != Connected
    ensures Send(c, data, res) == c && Notified(c, c, c.tasks, false)
  {
  }

  lemma StepBehind(c: Conn, step: Step)
    requires Enabled(c, step)
    ensures Notified(c, Next(c, step), Remaining(c, step), WritesLast(c, step))
  {
    hide SendInLoop, HandleWrite, RunFirst, Notified, Shutdown, ForceClose, HandleClose, HandleRead, ForeignSend;
    match step {
      case SendStep(data, res) =>
        if c.state == Connected {
          SendBehind(Promise(c, data), data, res);
          Promised(c, data, Next(c, step), SentAtOnce(c, data, res));
        } else {
          ClosedNotifiesNothing(c, data, res);
        }
      case WriteReady(res) => WriteBehind(c, res);
      case RunTask(res) => TaskBehind(c, res);
      case _ => OthersNotifyNothing(c, step);
    }
  }

  lemma Promised(c: Conn, data: string, d: Conn, last: bool)
    requires Notified(Promise(c, data), d, c.tasks, last)
    ensures Notified(c, d, c.tasks, last)
  {
  }

  /**
   Every step of every connection: the mark is reported, with the length reached, exactly if the output goes from below
   it to it or beyond, and once; completion is announced exactly if the step's write was the last one outstanding.
   */
  lemma StepNotifies(c: Conn, step: Step)
    requires Enabled(c, step)
    ensures var d := Next(c, step); var added := Added(c, step);
      && d.tasks == Remaining(c, step) + added
      && d.mark == c.mark && d.notifies == c.notifies
      && (forall n :: HighWater(n) in added <==>
            c.mark.Some? && |c.output| < c.mark.value <= |d.output| && n == |d.output|)
      && (WriteComplete in added <==> c.notifies && WritesLast(c, step))
      && |added| <= 1
  {
    hide Next, Enabled, WritesLast, Remaining;
    StepFrame(c, step);
    StepBehind(c, step);
  }

  // ----- over every run -----

  ghost predicate Reports(c: Conn, step: Step)
    requires Enabled(c, step)
  {
    exists n :: HighWater(n) in Added(c, step)
  }

  lemma {:induction false} OutputGrows(c: Conn, steps: seq<Step>)
    requires CanRun(c, steps) && forall s :: s in steps ==> !s.WriteReady?
    ensures |c.output| <= |After(c, steps).output| && After(c, steps).mark == c.mark
    decreases |steps|
  {
    if steps != [] {
      StepFrame(c, steps[0]);
      OutputGrows(Next(c, steps[0]), steps[1..]);
    }
  }

  lemma {:induction false} MarkStays(c: Conn, steps: seq<Step>)
    requires CanRun(c, steps)
    ensures After(c, steps).mark == c.mark
    decreases |steps|
  {
    if steps != [] {
      StepFrame(c, steps[0]);
      MarkStays(Next(c, steps[0]), steps[1..]);
    }
  }

  /**
   Between two reports of the mark the output has been written down below it: the first leaves it at the mark or beyond,
   a write event comes between them, and the second finds the output below the mark.
   */
  lemma BelowBetweenReports(mark: Option<nat>, notifies: bool, before: seq<Step>, first: Step, between: seq<Step>,
        second: Step)
    requires CanRun(Established(mark, notifies), before)
    requires var c := After(Established(mark, notifies), before);
      && Enabled(c, first) && Reports(c, first) && CanRun(Next(c, first), between)
      && Enabled(After(Next(c, first), between), second) && Reports(After(Next(c, first), between), second)
    ensures var c := Next(After(Established(mark, notifies), before), first);
      && mark.Some?
      && |After(c, between).output| < mark.value <= |c.output|
      && exists s :: s in between && s.WriteReady?
  {
    hide Next, Enabled, Added;
    var b := After(Established(mark, notifies), before);
    var c := Next(b, first);
    MarkStays(Established(mark, notifies), before);
    StepNotifies(b, first);
    MarkStays(c, between);
    StepNotifies(After(c, between), second);
    if forall s :: s in between ==> !s.WriteReady? {
      OutputGrows(c, between);
    }
  }
}
