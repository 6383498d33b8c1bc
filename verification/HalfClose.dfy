/**
 When a connection can be half-closed again. `shutdownInLoop` is reached from `shutdown`, from the task that
 `shutdown` queues on another thread, and from every write event that empties the output buffer of a connection
 being shut down; nothing remembers that it has been there before.
 */
module HalfClose {
  import opened Common
  import opened TcpConnection

  /** A queued half-close, or a queued send with bytes, that runs before the connection is closed by force. */
  predicate Threatens(tasks: seq<Task>) {
    tasks != [] && !tasks[0].ForceClosed? &&
    (tasks[0].HalfCloseLater? || BytesOf(tasks[0]) > 0 || Threatens(tasks[1..]))
  }

  /** A half-close can still come: bytes are being written, or such a task is queued, or nobody has shut down yet. */
  predicate CanHalfClose(c: Conn) {
    c.state == Connected || (c.state == Disconnecting && (c.writing || Threatens(c.tasks)))
  }

  ghost predicate HalfClosesAgain(c: Conn, later: seq<Step>) {
    CanRun(c, later) && After(c, later).log.halfCloses > c.log.halfCloses
  }

  // ----- if it can, it does in some run -----

  lemma OneMore(c: Conn, step: Step, later: seq<Step>)
    requires Enabled(c, step) && CanRun(Next(c, step), later)
    ensures CanRun(c, [step] + later) && After(c, [step] + later) == After(Next(c, step), later)
  {
    assert ([step] + later)[1..] == later;
  }

  /** The write event that takes everything. */
  lemma WritingHalfCloses(c: Conn) returns (later: seq<Step>)
    requires StreamInv(c) && c.state == Disconnecting && c.writing
    ensures HalfClosesAgain(c, later)
  {
    var all := WriteReady(Wrote(|c.output|));
    WriteChanges(c, Wrote(|c.output|));
    later := [all];
    assert later[1..] == [];
  }

  lemma FirstTaskKeeps(c: Conn)
    requires StreamInv(c) && c.state == Disconnecting && !c.writing && c.tasks != [] && !c.tasks[0].ForceClosed?
    ensures var d := Next(c, RunTask(Again));
      && StreamInv(d) && d.state == Disconnecting && d.log.halfCloses >= c.log.halfCloses
      && (c.tasks[0].HalfCloseLater? ==> d.log.halfCloses > c.log.halfCloses)
      && (BytesOf(c.tasks[0]) > 0 ==> d.writing)
      && (BytesOf(c.tasks[0]) == 0 ==> d.tasks == c.tasks[1..] && !d.writing)
  {
    TaskKeepsStream(c, Again);
    if c.tasks[0].SendLater? {
      var b := c.(tasks := c.tasks[1..]);
      SendChanges(b, c.tasks[0].data, Again);
      if c.tasks[0].data == "" {
        EmptySend(b);
      }
    }
  }

  lemma EmptySend(c: Conn)
    requires c.state != Disconnected && !c.writing
    ensures SendInLoop(c, "", Again).tasks == c.tasks
  {
  }

  lemma {:induction false} ThreatHalfCloses(c: Conn) returns (later: seq<Step>)
    requires StreamInv(c) && c.state == Disconnecting && (c.writing || Threatens(c.tasks))
    ensures HalfClosesAgain(c, later)
    decreases !c.writing, |c.tasks|
  {
    if c.writing {
      later := WritingHalfCloses(c);
    } else {
      hide StreamInv, Next;
      var d := Next(c, RunTask(Again));
      FirstTaskKeeps(c);
      if c.tasks[0].HalfCloseLater? {
        OneMore(c, RunTask(Again), []);
        later := [RunTask(Again)] + [];
      } else {
        var rest := ThreatHalfCloses(d);
        OneMore(c, RunTask(Again), rest);
        later := [RunTask(Again)] + rest;
      }
    }
  }

  lemma OpenHalfCloses(c: Conn) returns (later: seq<Step>)
    requires StreamInv(c) && c.state == Connected
    ensures HalfClosesAgain(c, later)
  {
    var d := Next(c, ShutdownStep);
    if c.writing {
      var rest := WritingHalfCloses(d);
      OneMore(c, ShutdownStep, rest);
      later := [ShutdownStep] + rest;
    } else {
      OneMore(c, ShutdownStep, []);
      later := [ShutdownStep] + [];
    }
  }

  // ----- if it cannot, it never does -----

  lemma {:induction false} NoticesThreatenNot(before: seq<Task>, after: seq<Task>)
    requires Notices(before, after) && !Threatens(before)
    ensures !Threatens(after)
    decreases |before|, |after|
  {
    if before == [] {
      if after != [] {
        assert after[0] in after[|before|..];
        assert Notices([], after[1..]);
        NoticesThreatenNot([], after[1..]);
      }
    } else if !before[0].ForceClosed? {
      assert after[1..][|before[1..]|..] == after[|before|..];
      assert Notices(before[1..], after[1..]);
      NoticesThreatenNot(before[1..], after[1..]);
    }
  }

  lemma {:induction false} ForceCloseThreatensNot(tasks: seq<Task>)
    requires !Threatens(tasks)
    ensures !Threatens(tasks + [ForceClosed])
  {
    if tasks != [] && !tasks[0].ForceClosed? {
      assert (tasks + [ForceClosed])[1..] == tasks[1..] + [ForceClosed];
      ForceCloseThreatensNot(tasks[1..]);
    }
  }

  lemma QueuedSendOver(c: Conn, res: WriteResult)
    requires StreamInv(c) && !CanHalfClose(c) && Enabled(c, RunTask(res)) && c.tasks[0].SendLater?
    ensures var d := RunFirst(c, res); !CanHalfClose(d) && d.log.halfCloses == c.log.halfCloses
  {
    hide SendInLoop;
    var b := c.(tasks := c.tasks[1..]);
    var data := c.tasks[0].data;
    if c.state == Disconnected {
      ClosedSend(b, data, res);
    } else {
      SendChanges(b, data, res);
      NoticesThreatenNot(b.tasks, SendInLoop(b, data, res).tasks);
    }
  }

  lemma TaskOfOver(c: Conn, res: WriteResult)
    requires StreamInv(c) && !CanHalfClose(c) && Enabled(c, RunTask(res))
    ensures var d := Next(c, RunTask(res)); !CanHalfClose(d) && d.log.halfCloses == c.log.halfCloses
  {
    hide SendInLoop;
    if c.tasks[0].SendLater? {
      hide RunFirst;
      QueuedSendOver(c, res);
    }
  }

  lemma StepOfOver(c: Conn, step: Step)
    requires StreamInv(c) && !CanHalfClose(c) && Enabled(c, step)
    ensures var d := Next(c, step); !CanHalfClose(d) && d.log.halfCloses == c.log.halfCloses
  {
    hide RunFirst, SendInLoop;
    match step {
      case RunTask(res) => TaskOfOver(c, res);
      case ForceCloseStep =>
        if c.state == Disconnecting {
          ForceCloseThreatensNot(c.tasks);
        }
      case _ =>
    }
  }

  lemma {:induction false} RunOfOver(c: Conn, later: seq<Step>)
    requires StreamInv(c) && !CanHalfClose(c) && CanRun(c, later)
    ensures After(c, later).log.halfCloses == c.log.halfCloses
    decreases |later|
  {
    if later != [] {
      StepOfOver(c, later[0]);
      StepKeepsStream(c, later[0]);
      RunOfOver(Next(c, later[0]), later[1..]);
    }
  }

  // ----- over every run -----

  /**
   After any run, with calls from any thread, a half-close can follow exactly if the connection is open, or is
   being shut down while bytes are being written or a queued half-close or send with bytes comes before the close.
   */
  lemma HalfCloseFollowsIff(mark: Option<nat>, notifies: bool, steps: seq<Step>)
    requires CanRun(Established(mark, notifies), steps)
    ensures var c := After(Established(mark, notifies), steps);
      (exists later :: HalfClosesAgain(c, later)) <==> CanHalfClose(c)
  {
    var c := After(Established(mark, notifies), steps);
    RunKeepsStream(Established(mark, notifies), steps);
    if CanHalfClose(c) {
      var later;
      if c.state == Connected {
        later := OpenHalfCloses(c);
      } else {
        later := ThreatHalfCloses(c);
      }
      assert HalfClosesAgain(c, later);
    } else {
      forall later | CanRun(c, later) ensures !HalfClosesAgain(c, later) {
        RunOfOver(c, later);
      }
    }
  }

  ghost predicate NoneQueued(tasks: seq<Task>) {
    forall t :: t in tasks ==> !t.HalfCloseLater?
  }

  /** An open connection has not been half-closed, and no half-close is queued on it. */
  ghost predicate OpenInv(c: Conn) {
    c.state == Connected ==> c.log.halfCloses == 0 && NoneQueued(c.tasks)
  }

  lemma NoticesQueueNone(before: seq<Task>, after: seq<Task>)
    requires Notices(before, after) && NoneQueued(before)
    ensures NoneQueued(after)
  {
    assert after == before + after[|before|..];
  }

  lemma OpenTask(c: Conn, res: WriteResult)
    requires OpenInv(c) && Enabled(c, RunTask(res))
    ensures OpenInv(Next(c, RunTask(res)))
  {
    hide SendInLoop, Notices;
    var b := c.(tasks := c.tasks[1..]);
    assert c.tasks[0] in c.tasks && forall t :: t in b.tasks ==> t in c.tasks;
    if c.tasks[0].SendLater? {
      if c.state == Disconnected {
        ClosedSend(b, c.tasks[0].data, res);
      } else {
        SendChanges(b, c.tasks[0].data, res);
        if c.state == Connected {
          NoticesQueueNone(b.tasks, SendInLoop(b, c.tasks[0].data, res).tasks);
        }
      }
    }
  }

  lemma OpenStep(c: Conn, step: Step)
    requires OpenInv(c) && Enabled(c, step)
    ensures OpenInv(Next(c, step))
  {
    hide SendInLoop, HandleWrite, RunFirst, Notices;
    StateMovesForward(c, step);
    match step {
      case SendStep(data, res) =>
        if c.state == Connected {
          SendChanges(Promise(c, data), data, res);
          NoticesQueueNone(c.tasks, Next(c, step).tasks);
        }
      case WriteReady(res) =>
        if c.state == Connected {
          WriteChanges(c, res);
          NoticesQueueNone(c.tasks, Next(c, step).tasks);
        }
      case RunTask(res) => OpenTask(c, res);
      case _ =>
    }
  }

  lemma {:induction false} OpenRun(c: Conn, steps: seq<Step>)
    requires OpenInv(c) && CanRun(c, steps)
    ensures OpenInv(After(c, steps))
    decreases |steps|
  {
    if steps != [] {
      OpenStep(c, steps[0]);
      OpenRun(Next(c, steps[0]), steps[1..]);
    }
  }

  /** Once half-closed, the connection can be half-closed a second time exactly under the same condition. */
  lemma HalfCloseRepeatsIff(mark: Option<nat>, notifies: bool, steps: seq<Step>)
    requires CanRun(Established(mark, notifies), steps)
    requires After(Established(mark, notifies), steps).log.halfCloses > 0
    ensures var c := After(Established(mark, notifies), steps);
      (exists later :: HalfClosesAgain(c, later)) <==> c.state == Disconnecting && (c.writing || Threatens(c.tasks))
  {
    OpenRun(Established(mark, notifies), steps);
    HalfCloseFollowsIff(mark, notifies, steps);
  }

  // ----- runs that half-close twice -----

  lemma RunOfFour(c: Conn, a: Step, b: Step, d: Step, e: Step)
    requires Enabled(c, a) && Enabled(Next(c, a), b) && Enabled(Next(Next(c, a), b), d)
    requires Enabled(Next(Next(Next(c, a), b), d), e)
    ensures CanRun(c, [a, b, d, e]) && After(c, [a, b, d, e]) == Next(Next(Next(Next(c, a), b), d), e)
  {
    hide Next, Enabled;
    var f := Next(c, a);
    var g := Next(f, b);
    var h := Next(g, d);
    assert [e][1..] == [] && [d, e][1..] == [e] && [b, d, e][1..] == [d, e] && [a, b, d, e][1..] == [b, d, e];
    assert CanRun(h, [e]) && After(h, [e]) == Next(h, e);
    assert CanRun(g, [d, e]) && After(g, [d, e]) == Next(h, e);
    assert CanRun(f, [b, d, e]) && After(f, [b, d, e]) == Next(h, e);
  }

  /** From another thread `shutdown` can half-close twice: when the last byte goes out, and when its task runs. */
  lemma ForeignShutdownHalfClosesTwice()
    ensures var steps := [SendStep("x", Again), ForeignShutdownStep, WriteReady(Wrote(1)), RunTask(Again)];
      CanRun(Established(None, false), steps) && After(Established(None, false), steps).log.halfCloses == 2
  {
    var c := Established(None, false);
    ByteThenShutdown();
    RunOfFour(c, SendStep("x", Again), ForeignShutdownStep, WriteReady(Wrote(1)), RunTask(Again));
  }

  lemma ByteThenShutdown()
    ensures var c := Next(Next(Established(None, false), SendStep("x", Again)), ForeignShutdownStep);
      && c.output == "x" && c.writing && c.tasks == [HalfCloseLater] && c.state == Disconnecting && !c.notifies
      && c.log.halfCloses == 0
  {
    assert [] + [HalfCloseLater] == [HalfCloseLater];
  }

  /** So can a send queued on another thread before a `shutdown` on the loop thread. */
  lemma ForeignSendHalfClosesTwice()
    ensures var steps := [ForeignStep("x"), ShutdownStep, RunTask(Again), WriteReady(Wrote(1))];
      CanRun(Established(None, false), steps) && After(Established(None, false), steps).log.halfCloses == 2
  {
    var c := Established(None, false);
    SendQueuedThenShutdown();
    var d := Next(Next(c, ForeignStep("x")), ShutdownStep);
    QueuedByteIsKept(d);
    RunOfFour(c, ForeignStep("x"), ShutdownStep, RunTask(Again), WriteReady(Wrote(1)));
  }

  lemma SendQueuedThenShutdown()
    ensures var c := Next(Next(Established(None, false), ForeignStep("x")), ShutdownStep);
      && c.output == "" && !c.writing && c.tasks == [SendLater("x")] && c.state == Disconnecting
          && c.log.halfCloses == 1
  {
    assert [] + [SendLater("x")] == [SendLater("x")];
  }

  lemma QueuedByteIsKept(c: Conn)
    requires c.output == "" && !c.writing && c.tasks == [SendLater("x")] && c.state == Disconnecting
    ensures var d := Next(c, RunTask(Again));
      d.output == "x" && d.writing && d.state == Disconnecting && d.log.halfCloses == c.log.halfCloses
  {
    hide SendInLoop;
    SendChanges(c.(tasks := c.tasks[1..]), "x", Again);
    assert "x"[0..] == "x" && "" + "x" == "x";
  }
}
