/**
 The event loop's task queue: threads push under a mutex and wake the loop through an event descriptor; the
 loop polls, handles events, swaps the queue out and runs it.
 */
module EventLoop {

  type Task = nat

  // ----- the loop object -----

  /** What the tasks of a batch enqueue while they run, in order. */
  function Spawned(spawn: Task -> seq<Task>, batch: seq<Task>): seq<Task> {
    if batch == [] then [] else Spawned(spawn, batch[..|batch| - 1]) + spawn(batch[|batch| - 1])
  }

  /** Each task's own list, in order, behind those of the tasks before it. */
  lemma {:induction false} SpawnedInOrder(spawn: Task -> seq<Task>, a: seq<Task>, b: seq<Task>)
    ensures Spawned(spawn, a + b) == Spawned(spawn, a) + Spawned(spawn, b)
  {
    if b == [] {
      assert a + b == a;
    } else {
      var k := |b| - 1;
      SpawnedInOrder(spawn, a, b[..k]);
      assert (a + b)[..|a + b| - 1] == a + b[..k];
    }
  }

  lemma SpawnedByOne(spawn: Task -> seq<Task>, task: Task)
    ensures Spawned(spawn, [task]) == spawn(task)
  {
    assert [task][..0] == [] && Spawned(spawn, [task]) == Spawned(spawn, []) + spawn(task);
  }

  class EventLoop {
    var pendingTasks: seq<Task>
    var doingPendingTasks: bool
    var eventfd: nat
    ghost var executed: seq<Task>

    constructor ()
      ensures pendingTasks == [] && !doingPendingTasks && eventfd == 0 && executed == []
    {
      pendingTasks, doingPendingTasks, eventfd, executed := [], false, 0, [];
    }

    method QueueInLoop(task: Task, inLoopThread: bool)
      modifies this`pendingTasks, this`eventfd
      ensures pendingTasks == old(pendingTasks) + [task]
      ensures eventfd == old(eventfd) + if !inLoopThread || doingPendingTasks then 1 else 0
    {
      pendingTasks := pendingTasks + [task];
      if !inLoopThread || doingPendingTasks {
        Wakeup();
      }
    }

    method Wakeup()
      modifies this`eventfd
      ensures eventfd == old(eventfd) + 1
    {
      eventfd := eventfd + 1;
    }

    method HandleRead()
      modifies this`eventfd
      ensures eventfd == 0
    {
      eventfd := 0;
    }

    /** The batch is exactly what was pending; what it enqueues stays for the next turn, with a wake-up for each. */
    method DoPendingTasks(spawn: Task -> seq<Task>)
      requires !doingPendingTasks
      modifies this
      ensures !doingPendingTasks
      ensures executed == old(executed) + old(pendingTasks)
      ensures pendingTasks == Spawned(spawn, old(pendingTasks))
      ensures eventfd == old(eventfd) + |Spawned(spawn, old(pendingTasks))|
    {
      var tasks := pendingTasks;
      pendingTasks := [];
      doingPendingTasks := true;
      for i := 0 to |tasks|
        invariant doingPendingTasks
        invariant executed == old(executed) + tasks[..i]
        invariant pendingTasks == Spawned(spawn, tasks[..i])
        invariant eventfd == old(eventfd) + |Spawned(spawn, tasks[..i])|
      {
        assert tasks[..i + 1][..i] == tasks[..i];
        executed := executed + [tasks[i]];
        QueueAll(spawn(tasks[i]));
      }
      assert tasks[..|tasks|] == tasks;
      doingPendingTasks := false;
    }

    /** A running task queues further ones. */
    method QueueAll(more: seq<Task>)
      requires doingPendingTasks
      modifies this`pendingTasks, this`eventfd
      ensures pendingTasks == old(pendingTasks) + more && eventfd == old(eventfd) + |more|
    {
      for j := 0 to |more|
        invariant pendingTasks == old(pendingTasks) + more[..j] && eventfd == old(eventfd) + j
      {
        QueueInLoop(more[j], true);
      }
    }
  }

  // ----- the loop and the other threads, step by step -----

  /** Where the loop thread is; `toRead` tells that the wake-up channel is active and not yet handled. */
  datatype Place = Polling | Handling(toRead: bool) | Running

  /**
   `middle` holds the other threads that have pushed a task and not yet written the event descriptor;
   `loopInMiddle` says the same of the loop thread. `enqueued` and `executed` are history.
   */
  datatype Loop = Loop(
    place: Place,
    pending: seq<Task>,
    batch: seq<Task>,
    doing: bool,
    eventfd: nat,
    middle: set<nat>,
    loopInMiddle: bool,
    enqueued: seq<Task>,
    executed: seq<Task>)

  datatype Step =
    | Push(thread: nat, task: Task)
    | Wake(thread: nat)
    | PollReturns(wakeupActive: bool)
    | ReadEventfd
    | LoopPush(task: Task)
    | LoopWake
    | Swap
    | RunNext
    | BatchDone

  const Init := Loop(Polling, [], [], false, 0, {}, false, [], [])

  predicate Enabled(l: Loop, step: Step) {
    match step
    case Push(t, _) => t !in l.middle
    case Wake(t) => t in l.middle
    case PollReturns(active) => l.place.Polling? && (active ==> l.eventfd > 0)
    case ReadEventfd => l.place == Handling(true)
    case LoopPush(_) => !l.place.Polling? && !l.loopInMiddle
    case LoopWake => l.loopInMiddle
    case Swap => l.place == Handling(false) && !l.loopInMiddle
    case RunNext => l.place.Running? && l.batch != [] && !l.loopInMiddle
    case BatchDone => l.place.Running? && l.batch == [] && !l.loopInMiddle
  }

  function Next(l: Loop, step: Step): Loop
    requires Enabled(l, step)
  {
    match step
    case Push(t, task) => l.(pending := l.pending + [task], enqueued := l.enqueued + [task], middle := l.middle + {t})
    case Wake(t) => l.(eventfd := l.eventfd + 1, middle := l.middle - {t})
    case PollReturns(active) => l.(place := Handling(active))
    case ReadEventfd => l.(eventfd := 0, place := Handling(false))
    case LoopPush(task) => l.(pending := l.pending + [task], enqueued := l.enqueued + [task], loopInMiddle := l.doing)
    case LoopWake => l.(eventfd := l.eventfd + 1, loopInMiddle := false)
    case Swap => l.(batch := l.pending, pending := [], doing := true, place := Running)
    case RunNext => l.(executed := l.executed + [l.batch[0]], batch := l.batch[1..])
    case BatchDone => l.(doing := false, place := Polling)
  }

  ghost predicate CanRun(l: Loop, steps: seq<Step>)
    decreases |steps|
  {
    steps == [] || (Enabled(l, steps[0]) && CanRun(Next(l, steps[0]), steps[1..]))
  }

  ghost function After(l: Loop, steps: seq<Step>): Loop
    requires CanRun(l, steps)
    decreases |steps|
  {
    if steps == [] then l else After(Next(l, steps[0]), steps[1..])
  }

  /** Nothing is pending, or a wake-up is on its way. */
  predicate WillWake(l: Loop) {
    l.pending == [] || l.eventfd > 0 || l.middle != {} || l.loopInMiddle
  }

  ghost predicate Inv(l: Loop) {
    && l.enqueued == l.executed + l.batch + l.pending
    && (l.doing <==> l.place.Running?)
    && (l.batch != [] ==> l.place.Running?)
    && (l.loopInMiddle ==> l.place.Running?)
    && (!l.place.Handling? ==> WillWake(l))
  }

  /** The history is what the steps do. */
  lemma HistoryTells(l: Loop, step: Step)
    requires Enabled(l, step)
    ensures Next(l, step).enqueued == l.enqueued + if step.Push? || step.LoopPush? then [step.task] else []
    ensures Next(l, step).executed == l.executed + if step.RunNext? then [l.batch[0]] else []
  {
    assert l.enqueued + [] == l.enqueued && l.executed + [] == l.executed;
  }

  lemma StepKeeps(l: Loop, step: Step)
    requires Inv(l) && Enabled(l, step)
    ensures Inv(Next(l, step))
  {
    var m := Next(l, step);
    match step {
      case Push(t, task) =>
        assert t in m.middle;
        assert l.executed + l.batch + (l.pending + [task]) == (l.executed + l.batch + l.pending) + [task];
      case LoopPush(task) =>
        assert l.executed + l.batch + (l.pending + [task]) == (l.executed + l.batch + l.pending) + [task];
      case Swap =>
        assert l.executed + [] + l.pending == l.executed + l.pending + [];
      case RunNext =>
        assert l.batch == [l.batch[0]] + l.batch[1..];
        assert (l.executed + [l.batch[0]]) + l.batch[1..] + l.pending == l.executed + l.batch + l.pending;
      case _ =>
    }
  }

  lemma {:induction false} RunKeeps(l: Loop, steps: seq<Step>)
    requires Inv(l) && CanRun(l, steps)
    ensures Inv(After(l, steps))
    decreases |steps|
  {
    if steps != [] {
      StepKeeps(l, steps[0]);
      RunKeeps(Next(l, steps[0]), steps[1..]);
    }
  }

  /** Tasks run in the order they were enqueued, none twice, none skipped. */
  lemma TasksRunInOrder(steps: seq<Step>)
    requires CanRun(Init, steps)
    ensures var l := After(Init, steps); l.enqueued == l.executed + l.batch + l.pending
  {
    RunKeeps(Init, steps);
  }

  /** The loop never sleeps on pending tasks, unless some thread is just about to write the event descriptor. */
  lemma NoLostWakeup(steps: seq<Step>)
    requires CanRun(Init, steps)
    ensures var l := After(Init, steps);
      l.place.Polling? && l.pending != [] && l.middle == {} ==> l.eventfd > 0 && Enabled(l, PollReturns(true))
  {
    RunKeeps(Init, steps);
  }

  function Repeat(n: nat): seq<Step> {
    if n == 0 then [] else [RunNext] + Repeat(n - 1)
  }

  lemma {:induction false} RunBatch(l: Loop)
    requires l.place.Running? && !l.loopInMiddle
    ensures CanRun(l, Repeat(|l.batch|))
    ensures After(l, Repeat(|l.batch|)) == l.(executed := l.executed + l.batch, batch := [])
    decreases |l.batch|
  {
    if l.batch == [] {
      assert l.executed + [] == l.executed;
    } else {
      var m := Next(l, RunNext);
      RunBatch(m);
      assert Repeat(|l.batch|)[1..] == Repeat(|m.batch|);
      assert (l.executed + [l.batch[0]]) + l.batch[1..] == l.executed + l.batch;
    }
  }

  /** From there one turn of the loop runs everything that was pending, with no help from other threads. */
  lemma WakeupLeadsToExecution(steps: seq<Step>)
    requires CanRun(Init, steps)
    requires var l := After(Init, steps); l.place.Polling? && l.pending != [] && l.middle == {}
    ensures var l := After(Init, steps);
      var turn := [PollReturns(true), ReadEventfd, Swap] + Repeat(|l.pending|);
      CanRun(l, turn) && After(l, turn).executed == l.enqueued && After(l, turn).pending == []
  {
    RunKeeps(Init, steps);
    OneTurn(After(Init, steps));
  }

  lemma OneTurn(l: Loop)
    requires Inv(l) && l.place.Polling? && l.pending != [] && l.middle == {}
    ensures var turn := [PollReturns(true), ReadEventfd, Swap] + Repeat(|l.pending|);
      CanRun(l, turn) && After(l, turn).executed == l.enqueued && After(l, turn).pending == []
  {
    var batch := Repeat(|l.pending|);
    Swapped(l);
    var a := Next(l, PollReturns(true));
    var b := Next(a, ReadEventfd);
    var c := Next(b, Swap);
    RunBatch(c);
    hide Next, Enabled;
    First(b, Swap, batch);
    First(a, ReadEventfd, [Swap] + batch);
    First(l, PollReturns(true), [ReadEventfd] + ([Swap] + batch));
    assert [PollReturns(true)] + ([ReadEventfd] + ([Swap] + batch)) == [PollReturns(true), ReadEventfd, Swap] + batch;
    assert l.executed + [] + l.pending == l.executed + l.pending;
  }

  lemma Swapped(l: Loop)
    requires Inv(l) && l.place.Polling? && l.pending != [] && l.middle == {}
    ensures Enabled(l, PollReturns(true)) && var a := Next(l, PollReturns(true));
      Enabled(a, ReadEventfd) && var b := Next(a, ReadEventfd);
      Enabled(b, Swap) && var c := Next(b, Swap);
      && c.place.Running? && !c.loopInMiddle && c.batch == l.pending && c.pending == []
      && c.executed == l.executed && l.enqueued == l.executed + l.batch + l.pending && l.batch == []
  {
  }

  lemma First(l: Loop, step: Step, steps: seq<Step>)
    requires Enabled(l, step) && CanRun(Next(l, step), steps)
    ensures CanRun(l, [step] + steps) && After(l, [step] + steps) == After(Next(l, step), steps)
  {
    hide Next, Enabled;
    assert ([step] + steps)[1..] == steps;
  }
}
