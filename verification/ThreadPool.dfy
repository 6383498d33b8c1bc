/**
 The thread pool: a bounded queue under one mutex and two condition variables. Each action is one step that
 holds the mutex, except that a worker's decision to wait and the wait itself are two, because `stop` changes
 `running_` without the mutex. Waits may also end spuriously.
 */
module ThreadPool {
  import opened Common
  import opened Sums

  type Task = nat

  // ----- the critical sections -----

  class ThreadPool {
    const maxQueueSize: nat
    const numThreads: nat
    var taskQueue: seq<Task>
    var running: bool

    constructor (numThread: nat, maxQueueSize: nat)
      requires maxQueueSize > 0
      ensures this.maxQueueSize == maxQueueSize && numThreads == numThread && taskQueue == [] && running
    {
      this.maxQueueSize, numThreads, taskQueue, running := maxQueueSize, numThread, [], true;
    }

    /** One pass of the producer's wait loop; with no thread the task is run at once by the caller. */
    method TryRunTask(task: Task) returns (mustWait: bool, ranInline: bool)
      requires running
      modifies this`taskQueue
      ensures ranInline <==> numThreads == 0
      ensures mustWait <==> !ranInline && MustWaitToPut(old(taskQueue), maxQueueSize)
      ensures taskQueue == if ranInline || mustWait then old(taskQueue) else old(taskQueue) + [task]
    {
      mustWait, ranInline := false, numThreads == 0;
      if !ranInline {
        mustWait := |taskQueue| >= maxQueueSize;
        if !mustWait {
          taskQueue := taskQueue + [task];
        }
      }
    }

    /** One pass of the worker's wait loop. */
    method TryTake() returns (mustWait: bool, task: Option<Task>)
      modifies this`taskQueue
      ensures mustWait <==> MustWaitToTake(old(taskQueue), running)
      ensures task == if old(taskQueue) == [] then None else Some(old(taskQueue)[0])
      ensures taskQueue == if old(taskQueue) == [] then [] else old(taskQueue)[1..]
    {
      mustWait := taskQueue == [] && running;
      task := None;
      if taskQueue != [] {
        task := Some(taskQueue[0]);
        taskQueue := taskQueue[1..];
      }
    }
  }

  predicate MustWaitToPut(queue: seq<Task>, max: nat) {
    |queue| >= max
  }

  predicate MustWaitToTake(queue: seq<Task>, running: bool) {
    queue == [] && running
  }

  // ----- all threads together -----

  /** `Deciding` holds the mutex, between the test of the wait loop and the wait. */
  datatype Worker = Idle | Entering | Deciding | Waiting | Woken | Exited

  datatype Producer = Away | Offering(task: Task) | Blocked(task: Task) | Notified(task: Task)

  datatype Stop = NotStopped | FlagCleared | AllNotified

  /** `accepted` and `taken` are history, in the order of the critical sections. */
  datatype Pool = Pool(
    max: nat,
    queue: seq<Task>,
    running: bool,
    workers: map<nat, Worker>,
    producers: map<nat, Producer>,
    stop: Stop,
    accepted: seq<Task>,
    taken: seq<Task>)

  /** A step that notifies names the thread it wakes, if any is waiting. */
  datatype Step =
    | CheckRunning(w: nat)
    | TryTake(w: nat, wakes: Option<nat>)
    | StartWaiting(w: nat)
    | WorkerSpurious(w: nat)
    | Offer(p: nat, task: Task)
    | TryPut(p: nat, wakes: Option<nat>)
    | ProducerSpurious(p: nat)
    | ClearFlag
    | NotifyAll

  function Init(max: nat, workers: set<nat>, producers: set<nat>): Pool {
    Pool(max, [], true, map w | w in workers :: Idle, map p | p in producers :: Away, NotStopped, [], [])
  }

  predicate MutexFree(s: Pool) {
    forall w :: w in s.workers ==> !s.workers[w].Deciding?
  }

  ghost predicate WakesWorker(s: Pool, wakes: Option<nat>) {
    match wakes
    case Some(w) => w in s.workers && s.workers[w].Waiting?
    case None => forall w :: w in s.workers ==> !s.workers[w].Waiting?
  }

  ghost predicate WakesProducer(s: Pool, wakes: Option<nat>) {
    match wakes
    case Some(p) => p in s.producers && s.producers[p].Blocked?
    case None => forall p :: p in s.producers ==> !s.producers[p].Blocked?
  }

  ghost predicate Enabled(s: Pool, step: Step) {
    match step
    case CheckRunning(w) => w in s.workers && s.workers[w].Idle?
    case TryTake(w, wakes) =>
      w in s.workers && (s.workers[w].Entering? || s.workers[w].Woken?) && MutexFree(s)
      && (s.queue != [] ==> WakesProducer(s, wakes))
    case StartWaiting(w) => w in s.workers && s.workers[w].Deciding?
    case WorkerSpurious(w) => w in s.workers && s.workers[w].Waiting?
    case Offer(p, _) => p in s.producers && s.producers[p].Away? && s.running && s.workers != map[]
    case TryPut(p, wakes) =>
      p in s.producers && (s.producers[p].Offering? || s.producers[p].Notified?) && MutexFree(s)
      && (|s.queue| < s.max ==> WakesWorker(s, wakes))
    case ProducerSpurious(p) => p in s.producers && s.producers[p].Blocked?
    case ClearFlag => s.stop.NotStopped?
    case NotifyAll => s.stop.FlagCleared? && MutexFree(s)
  }

  function WakeProducer(producers: map<nat, Producer>, wakes: Option<nat>): map<nat, Producer> {
    if wakes.Some? && wakes.value in producers && producers[wakes.value].Blocked?
    then producers[wakes.value := Notified(producers[wakes.value].task)] else producers
  }

  function WakeWorker(workers: map<nat, Worker>, wakes: Option<nat>): map<nat, Worker> {
    if wakes.Some? then workers[wakes.value := Woken] else workers
  }

  ghost function Next(s: Pool, step: Step): Pool
    requires Enabled(s, step)
  {
    match step
    case CheckRunning(w) => s.(workers := s.workers[w := if s.running then Entering else Exited])
    case TryTake(w, wakes) =>
      if MustWaitToTake(s.queue, s.running) then s.(workers := s.workers[w := Deciding])
      else if s.queue == [] then s.(workers := s.workers[w := Idle])
      else s.(workers := s.workers[w := Idle], queue := s.queue[1..], taken := s.taken + [s.queue[0]],
              producers := WakeProducer(s.producers, wakes))
    case StartWaiting(w) => s.(workers := s.workers[w := Waiting])
    case WorkerSpurious(w) => s.(workers := s.workers[w := Woken])
    case Offer(p, task) => s.(producers := s.producers[p := Offering(task)])
    case TryPut(p, wakes) =>
      var task := s.producers[p].task;
      if MustWaitToPut(s.queue, s.max) then s.(producers := s.producers[p := Blocked(task)])
      else s.(producers := s.producers[p := Away], queue := s.queue + [task], accepted := s.accepted + [task],
              workers := WakeWorker(s.workers, wakes))
    case ProducerSpurious(p) => s.(producers := s.producers[p := Notified(s.producers[p].task)])
    case ClearFlag => s.(running := false, stop := FlagCleared)
    case NotifyAll =>
      s.(stop := AllNotified,
         workers := map w | w in s.workers :: if s.workers[w].Waiting? then Woken else s.workers[w])
  }

  ghost predicate CanRun(s: Pool, steps: seq<Step>)
    decreases |steps|
  {
    steps == [] || (Enabled(s, steps[0]) && CanRun(Next(s, steps[0]), steps[1..]))
  }

  ghost function After(s: Pool, steps: seq<Step>): Pool
    requires CanRun(s, steps)
    decreases |steps|
  {
    if steps == [] then s else After(Next(s, steps[0]), steps[1..])
  }

  // ----- what every step keeps -----

  ghost function WokenWorkers(workers: map<nat, Worker>): set<nat> {
    set w | w in workers && workers[w].Woken?
  }

  ghost function NotifiedProducers(producers: map<nat, Producer>): set<nat> {
    set p | p in producers && producers[p].Notified?
  }

  ghost predicate SomeWaiting(workers: map<nat, Worker>) {
    exists w :: w in workers && workers[w].Waiting?
  }

  ghost predicate SomeBlocked(producers: map<nat, Producer>) {
    exists p :: p in producers && producers[p].Blocked?
  }

  /** If a worker sleeps, every queued task has a worker already woken for it. */
  ghost predicate WorkersNotified(s: Pool) {
    SomeWaiting(s.workers) ==> |s.queue| <= |WokenWorkers(s.workers)|
  }

  /** If a producer sleeps, the free places are no more than the producers already woken for them. */
  ghost predicate ProducersNotified(s: Pool) {
    SomeBlocked(s.producers) ==> |s.queue| + |NotifiedProducers(s.producers)| >= s.max
  }

  ghost predicate Deciders(s: Pool) {
    && (forall w, v :: w in s.workers && v in s.workers && s.workers[w].Deciding? && s.workers[v].Deciding? ==> w == v)
    && (forall w :: w in s.workers && s.workers[w].Deciding? ==> s.queue == [])
  }

  ghost predicate Stopping(s: Pool) {
    && (s.running <==> s.stop.NotStopped?)
    && (s.running ==> forall w :: w in s.workers ==> !s.workers[w].Exited?)
    && (s.stop.AllNotified? ==> forall w :: w in s.workers ==> !s.workers[w].Waiting? && !s.workers[w].Deciding?)
  }

  /** Without threads the caller runs its task itself and the queue is not used. */
  ghost predicate InlineOnly(s: Pool) {
    s.workers == map[] ==> s.queue == [] && forall p :: p in s.producers ==> s.producers[p].Away?
  }

  ghost predicate Inv(s: Pool) {
    && s.max > 0
    && |s.queue| <= s.max
    && s.accepted == s.taken + s.queue
    && Deciders(s) && Stopping(s) && InlineOnly(s) && WorkersNotified(s) && ProducersNotified(s)
  }

  lemma WorkerMoves(workers: map<nat, Worker>, w: nat, to: Worker)
    requires w in workers
    ensures var after := WokenWorkers(workers[w := to]); var before := WokenWorkers(workers);
      after == if to.Woken? then before + {w} else before - {w}
    ensures workers[w].Woken? <==> w in WokenWorkers(workers)
  {
  }

  lemma ProducerMoves(producers: map<nat, Producer>, p: nat, to: Producer)
    requires p in producers
    ensures var after := NotifiedProducers(producers[p := to]); var before := NotifiedProducers(producers);
      after == if to.Notified? then before + {p} else before - {p}
    ensures producers[p].Notified? <==> p in NotifiedProducers(producers)
  {
  }

  /** A worker that finds nothing to take: it is about to wait, or leaves because the pool has stopped. */
  lemma EmptyTakeKeeps(s: Pool, w: nat, wakes: Option<nat>)
    requires Inv(s) && Enabled(s, TryTake(w, wakes)) && s.queue == []
    ensures Inv(Next(s, TryTake(w, wakes)))
  {
    hide WokenWorkers, NotifiedProducers, WakesProducer, WakeProducer;
    var t := Next(s, TryTake(w, wakes));
    assert Deciders(t);
    assert Stopping(t);
  }

  /** Taking a task uses up at most one woken worker and frees one place for one producer. */
  lemma FullTakeKeeps(s: Pool, w: nat, wakes: Option<nat>)
    requires Inv(s) && Enabled(s, TryTake(w, wakes)) && s.queue != []
    ensures Inv(Next(s, TryTake(w, wakes)))
  {
    hide WokenWorkers, NotifiedProducers;
    var t := Next(s, TryTake(w, wakes));
    assert s.taken + s.queue == (s.taken + [s.queue[0]]) + s.queue[1..];
    TakeUsesOneWorker(s, t, w);
    TakeWakesProducer(s, t, wakes);
  }

  lemma TakeUsesOneWorker(s: Pool, t: Pool, w: nat)
    requires WorkersNotified(s) && w in s.workers && s.queue != []
    requires t.workers == s.workers[w := Idle] && t.queue == s.queue[1..]
    ensures WorkersNotified(t)
  {
    hide WokenWorkers;
    WorkerMoves(s.workers, w, Idle);
    if SomeWaiting(t.workers) {
      var v :| v in t.workers && t.workers[v].Waiting?;
      assert s.workers[v].Waiting?;
    }
  }

  lemma TakeWakesProducer(s: Pool, t: Pool, wakes: Option<nat>)
    requires ProducersNotified(s) && WakesProducer(s, wakes) && s.queue != []
    requires t.producers == WakeProducer(s.producers, wakes) && t.queue == s.queue[1..] && t.max == s.max
    ensures ProducersNotified(t)
  {
    hide NotifiedProducers;
    if wakes.Some? {
      ProducerMoves(s.producers, wakes.value, Notified(s.producers[wakes.value].task));
      assert SomeBlocked(s.producers);
    }
  }

  lemma PutKeeps(s: Pool, p: nat, wakes: Option<nat>)
    requires Inv(s) && Enabled(s, TryPut(p, wakes))
    ensures Inv(Next(s, TryPut(p, wakes)))
  {
    var t := Next(s, TryPut(p, wakes));
    ProducerMoves(s.producers, p, t.producers[p]);
    if SomeBlocked(t.producers) {
      var q :| q in t.producers && t.producers[q].Blocked?;
      assert q != p ==> s.producers[q].Blocked?;
    }
    if |s.queue| < s.max {
      assert s.taken + (s.queue + [s.producers[p].task]) == (s.taken + s.queue) + [s.producers[p].task];
      if wakes.Some? {
        WorkerMoves(s.workers, wakes.value, Woken);
        assert SomeWaiting(s.workers);
      }
    }
  }

  lemma WorkerStepKeeps(s: Pool, step: Step)
    requires Inv(s) && Enabled(s, step) && (step.CheckRunning? || step.StartWaiting? || step.WorkerSpurious?)
    ensures Inv(Next(s, step))
  {
    hide WorkersNotified, ProducersNotified, InlineOnly;
    var t := Next(s, step);
    HasWorkers(s, t, step.w);
    MovingKeepsNotified(s, t, step.w, t.workers[step.w]);
    SameProducers(s, t);
  }

  lemma SameProducers(s: Pool, t: Pool)
    requires ProducersNotified(s) && t.producers == s.producers && t.queue == s.queue && t.max == s.max
    ensures ProducersNotified(t)
  {
  }

  /** A worker that moves without a task: one that falls asleep has found the queue empty. */
  lemma MovingKeepsNotified(s: Pool, t: Pool, w: nat, to: Worker)
    requires WorkersNotified(s) && w in s.workers && !s.workers[w].Woken?
    requires t.workers == s.workers[w := to] && t.queue == s.queue && (to.Waiting? ==> s.queue == [])
    ensures WorkersNotified(t)
  {
    hide WokenWorkers;
    WorkerMoves(s.workers, w, to);
    if SomeWaiting(t.workers) && !to.Waiting? {
      var v :| v in t.workers && t.workers[v].Waiting?;
      assert s.workers[v].Waiting?;
    }
  }

  lemma HasWorkers(s: Pool, t: Pool, w: nat)
    requires InlineOnly(s) && w in s.workers && w in t.workers
    ensures InlineOnly(t)
  {
  }

  lemma ProducerStepKeeps(s: Pool, step: Step)
    requires Inv(s) && Enabled(s, step) && (step.Offer? || step.ProducerSpurious?)
    ensures Inv(Next(s, step))
  {
    var t := Next(s, step);
    ProducerMoves(s.producers, step.p, t.producers[step.p]);
    if SomeBlocked(t.producers) {
      var q :| q in t.producers && t.producers[q].Blocked?;
      assert s.producers[q].Blocked?;
    }
  }

  lemma StopKeeps(s: Pool, step: Step)
    requires Inv(s) && Enabled(s, step) && (step.ClearFlag? || step.NotifyAll?)
    ensures Inv(Next(s, step))
  {
    assert Next(s, step).workers.Keys == s.workers.Keys;
    assert s.workers == map[] <==> s.workers.Keys == {};
  }

  lemma StepKeeps(s: Pool, step: Step)
    requires Inv(s) && Enabled(s, step)
    ensures Inv(Next(s, step))
  {
    match step
    case TryTake(w, wakes) =>
      if s.queue == [] {
        EmptyTakeKeeps(s, w, wakes);
      } else {
        FullTakeKeeps(s, w, wakes);
      }
    case TryPut(p, wakes) => PutKeeps(s, p, wakes);
    case CheckRunning(_) => WorkerStepKeeps(s, step);
    case StartWaiting(_) => WorkerStepKeeps(s, step);
    case WorkerSpurious(_) => WorkerStepKeeps(s, step);
    case Offer(_, _) => ProducerStepKeeps(s, step);
    case ProducerSpurious(_) => ProducerStepKeeps(s, step);
    case _ => StopKeeps(s, step);
  }

  lemma {:induction false} RunKeeps(s: Pool, steps: seq<Step>)
    requires Inv(s) && CanRun(s, steps)
    ensures Inv(After(s, steps))
    decreases |steps|
  {
    if steps != [] {
      StepKeeps(s, steps[0]);
      RunKeeps(Next(s, steps[0]), steps[1..]);
    }
  }

  lemma InitKeeps(max: nat, workers: set<nat>, producers: set<nat>)
    requires max > 0
    ensures Inv(Init(max, workers, producers))
  {
  }

  /** The history is what the steps do: a put accepts the producer's own task, a take hands out the oldest. */
  lemma HistoryTells(s: Pool, step: Step)
    requires Enabled(s, step)
    ensures Next(s, step).accepted == s.accepted
      + if step.TryPut? && |s.queue| < s.max then [s.producers[step.p].task] else []
    ensures Next(s, step).taken == s.taken + if step.TryTake? && s.queue != [] then [s.queue[0]] else []
    ensures step.Offer? ==> step.p in Next(s, step).producers && Next(s, step).producers[step.p] == Offering(step.task)
  {
    assert s.accepted + [] == s.accepted && s.taken + [] == s.taken;
  }

  // ----- the promises -----

  /** The queue stays within its bound, and tasks are taken in the order in which they were accepted. */
  lemma BoundedAndInOrder(max: nat, workers: set<nat>, producers: set<nat>, steps: seq<Step>)
    requires max > 0 && CanRun(Init(max, workers, producers), steps)
    ensures var s := After(Init(max, workers, producers), steps);
      |s.queue| <= s.max && s.accepted == s.taken + s.queue
  {
    InitKeeps(max, workers, producers);
    RunKeeps(Init(max, workers, producers), steps);
  }

  /** No notification is lost, on either side. */
  lemma NoLostNotify(max: nat, workers: set<nat>, producers: set<nat>, steps: seq<Step>)
    requires max > 0 && CanRun(Init(max, workers, producers), steps)
    ensures var s := After(Init(max, workers, producers), steps);
      && (SomeWaiting(s.workers) ==> |s.queue| <= |WokenWorkers(s.workers)|)
      && (SomeBlocked(s.producers) ==> |s.queue| + |NotifiedProducers(s.producers)| >= s.max)
  {
    InitKeeps(max, workers, producers);
    RunKeeps(Init(max, workers, producers), steps);
  }

  /** A notification always finds a thread to wake, or none is asleep. */
  lemma SomeoneToWake(s: Pool)
    ensures exists wakes :: WakesProducer(s, wakes)
    ensures exists wakes :: WakesWorker(s, wakes)
  {
    if p :| p in s.producers && s.producers[p].Blocked? {
      assert WakesProducer(s, Some(p));
    } else {
      assert WakesProducer(s, None);
    }
    if w :| w in s.workers && s.workers[w].Waiting? {
      assert WakesWorker(s, Some(w));
    } else {
      assert WakesWorker(s, None);
    }
  }

  /** A step that some caller or the runtime may take or not, and that nothing waits for. */
  predicate Optional(step: Step) {
    step.Offer? || step.WorkerSpurious? || step.ProducerSpurious? || step.ClearFlag?
  }

  lemma StuckWorkersWait(s: Pool)
    requires Inv(s) && s.running && forall step :: Enabled(s, step) ==> Optional(step)
    ensures forall w :: w in s.workers ==> s.workers[w].Waiting?
  {
    forall w | w in s.workers ensures !s.workers[w].Idle? && !s.workers[w].Deciding? {
      assert Enabled(s, CheckRunning(w)) <==> s.workers[w].Idle?;
      assert Enabled(s, StartWaiting(w)) <==> s.workers[w].Deciding?;
    }
    SomeoneToWake(s);
    var wakes :| WakesProducer(s, wakes);
    forall w | w in s.workers ensures s.workers[w].Waiting? {
      assert !Enabled(s, TryTake(w, wakes));
    }
  }

  /**
   While the pool runs it never stands still: every task offered has then been accepted, and every one accepted
   taken.
   */
  lemma StuckMeansAllTaken(max: nat, workers: set<nat>, producers: set<nat>, steps: seq<Step>)
    requires max > 0 && CanRun(Init(max, workers, producers), steps)
    requires var s := After(Init(max, workers, producers), steps);
      s.running && forall step :: Enabled(s, step) ==> Optional(step)
    ensures var s := After(Init(max, workers, producers), steps);
      s.queue == [] && s.taken == s.accepted && forall p :: p in s.producers ==> s.producers[p].Away?
  {
    var s := After(Init(max, workers, producers), steps);
    InitKeeps(max, workers, producers);
    RunKeeps(Init(max, workers, producers), steps);
    StuckWorkersWait(s);
    if s.workers != map[] {
      var w :| w in s.workers;
      assert s.workers[w].Waiting?;
      assert WokenWorkers(s.workers) == {};
      SomeoneToWake(s);
      var wakes :| WakesWorker(s, wakes);
      forall p | p in s.producers ensures s.producers[p].Away? || s.producers[p].Blocked? {
        assert !Enabled(s, TryPut(p, wakes));
      }
      assert NotifiedProducers(s.producers) == {};
    }
  }

  // ----- every run settles -----

  function WorkerLoad(running: bool): Worker -> int {
    (w: Worker) =>
      match w
      case Idle => if running then 4 else 2
      case Entering => 3
      case Deciding => 2
      case Waiting => 1
      case Woken => 3
      case Exited => 0
  }

  function ProducerLoad(): Producer -> int {
    (p: Producer) =>
      match p
      case Away => 0
      case Offering(_) => 7
      case Blocked(_) => 6
      case Notified(_) => 7
  }

  function StopLoad(s: Pool): int {
    match s.stop
    case NotStopped => 2 * |s.workers| + 2
    case FlagCleared => 2 * |s.workers| + 1
    case AllNotified => 0
  }

  /** What the threads still have to do. */
  ghost function Todo(s: Pool): int {
    SumOfMap(WorkerLoad(s.running), s.workers) + SumOfMap(ProducerLoad(), s.producers) + 4 * |s.queue| + StopLoad(s)
  }

  /** What a step brings in: an offer its task, a spurious wake-up another pass of the wait loop. */
  function Brings(step: Step): int {
    match step
    case Offer(_, _) => 7
    case WorkerSpurious(_) => 2
    case ProducerSpurious(_) => 1
    case _ => -1
  }

  lemma SameKeys(s: Pool, step: Step)
    requires Enabled(s, step)
    ensures Next(s, step).workers.Keys == s.workers.Keys && |Next(s, step).workers| == |s.workers|
  {
    var t := Next(s, step);
    assert t.workers.Keys == s.workers.Keys;
    assert |t.workers| == |t.workers.Keys| && |s.workers| == |s.workers.Keys|;
  }

  lemma TakeLowers(s: Pool, w: nat, wakes: Option<nat>)
    requires Enabled(s, TryTake(w, wakes))
    ensures Todo(Next(s, TryTake(w, wakes))) <= Todo(s) - 1
  {
    hide SumOfMap;
    var t := Next(s, TryTake(w, wakes));
    SameKeys(s, TryTake(w, wakes));
    SumOfMapUpdate(WorkerLoad(s.running), s.workers, w, t.workers[w]);
    if s.queue != [] && wakes.Some? {
      SumOfMapUpdate(ProducerLoad(), s.producers, wakes.value, t.producers[wakes.value]);
    }
  }

  lemma PutLowers(s: Pool, p: nat, wakes: Option<nat>)
    requires Enabled(s, TryPut(p, wakes))
    ensures Todo(Next(s, TryPut(p, wakes))) <= Todo(s) - 1
  {
    hide SumOfMap;
    var t := Next(s, TryPut(p, wakes));
    SameKeys(s, TryPut(p, wakes));
    SumOfMapUpdate(ProducerLoad(), s.producers, p, t.producers[p]);
    if |s.queue| < s.max && wakes.Some? {
      SumOfMapUpdate(WorkerLoad(s.running), s.workers, wakes.value, Woken);
    }
  }

  lemma StopLowers(s: Pool, step: Step)
    requires Enabled(s, step) && (step.ClearFlag? || step.NotifyAll?) && (step.ClearFlag? ==> s.running)
    ensures Todo(Next(s, step)) <= Todo(s) - 1
  {
    hide SumOfMap;
    var t := Next(s, step);
    SameKeys(s, step);
    SumOfMapGrows(WorkerLoad(s.running), WorkerLoad(t.running), s.workers, t.workers, if step.ClearFlag? then 0 else 2);
  }

  lemma StepLowers(s: Pool, step: Step)
    requires Inv(s) && Enabled(s, step)
    ensures Todo(Next(s, step)) <= Todo(s) + Brings(step)
  {
    hide SumOfMap, Inv;
    var t := Next(s, step);
    SameKeys(s, step);
    match step {
      case TryTake(w, wakes) => TakeLowers(s, w, wakes);
      case TryPut(p, wakes) => PutLowers(s, p, wakes);
      case CheckRunning(w) => SumOfMapUpdate(WorkerLoad(s.running), s.workers, w, t.workers[w]);
      case StartWaiting(w) => SumOfMapUpdate(WorkerLoad(s.running), s.workers, w, Waiting);
      case WorkerSpurious(w) => SumOfMapUpdate(WorkerLoad(s.running), s.workers, w, Woken);
      case Offer(p, task) => SumOfMapUpdate(ProducerLoad(), s.producers, p, Offering(task));
      case ProducerSpurious(p) => SumOfMapUpdate(ProducerLoad(), s.producers, p, t.producers[p]);
      case ClearFlag => FlagIsSet(s); StopLowers(s, step);
      case NotifyAll => StopLowers(s, step);
    }
  }

  lemma FlagIsSet(s: Pool)
    requires Inv(s) && s.stop.NotStopped?
    ensures s.running
  {
  }

  function Brought(steps: seq<Step>): int {
    if steps == [] then 0 else Brings(steps[0]) + Brought(steps[1..])
  }

  lemma {:induction false} RunLowers(s: Pool, steps: seq<Step>)
    requires Inv(s) && CanRun(s, steps)
    ensures Todo(After(s, steps)) <= Todo(s) + Brought(steps)
    decreases |steps|
  {
    if steps != [] {
      hide Inv, Todo;
      StepLowers(s, steps[0]);
      StepKeeps(s, steps[0]);
      RunLowers(Next(s, steps[0]), steps[1..]);
    }
  }

  lemma TodoNonNegative(s: Pool)
    ensures Todo(s) >= 0
  {
    hide SumOfMap;
    SumOfMapNonNegative(WorkerLoad(s.running), s.workers);
    SumOfMapNonNegative(ProducerLoad(), s.producers);
  }

  /** How many steps of a run pass a test. */
  function Count(test: Step -> bool, steps: seq<Step>): nat {
    if steps == [] then 0 else (if test(steps[0]) then 1 else 0) + Count(test, steps[1..])
  }

  lemma {:induction false} CountInOrder(test: Step -> bool, a: seq<Step>, b: seq<Step>)
    ensures Count(test, a + b) == Count(test, a) + Count(test, b)
  {
    if a == [] {
      assert a + b == b;
    } else {
      assert (a + b)[1..] == a[1..] + b;
      CountInOrder(test, a[1..], b);
    }
  }

  lemma CountOne(test: Step -> bool, step: Step)
    ensures Count(test, [step]) == if test(step) then 1 else 0
  {
    assert [step][1..] == [];
  }

  function Offers(): Step -> bool {
    (step: Step) => step.Offer?
  }

  function Spurious(): Step -> bool {
    (step: Step) => step.WorkerSpurious? || step.ProducerSpurious?
  }

  lemma {:induction false} BroughtIn(steps: seq<Step>)
    ensures |steps| + Brought(steps) <= 8 * Count(Offers(), steps) + 3 * Count(Spurious(), steps)
  {
    if steps != [] {
      BroughtIn(steps[1..]);
    }
  }

  lemma TodoAtStart(max: nat, workers: set<nat>, producers: set<nat>)
    ensures Todo(Init(max, workers, producers)) <= 6 * |workers| + 2
  {
    hide SumOfMap;
    var s := Init(max, workers, producers);
    assert s.workers.Keys == workers && s.producers.Keys == producers;
    SumOfMapAtMost(WorkerLoad(true), s.workers, 4);
    SumOfMapAtMost(ProducerLoad(), s.producers, 0);
  }

  /**
   Without new offers and spurious wake-ups every run ends; its length is bounded by those and the number of
   threads.
   */
  lemma RunsSettle(max: nat, workers: set<nat>, producers: set<nat>, steps: seq<Step>)
    requires max > 0 && CanRun(Init(max, workers, producers), steps)
    ensures |steps| <= 8 * Count(Offers(), steps) + 3 * Count(Spurious(), steps) + 6 * |workers| + 2
  {
    InitKeeps(max, workers, producers);
    RunLowers(Init(max, workers, producers), steps);
    TodoNonNegative(After(Init(max, workers, producers), steps));
    TodoAtStart(max, workers, producers);
    BroughtIn(steps);
  }

  /** After `stop` has notified everyone, no worker waits, and none will wait again. */
  lemma StopReleasesWorkers(max: nat, workers: set<nat>, producers: set<nat>, steps: seq<Step>, later: seq<Step>)
    requires max > 0 && CanRun(Init(max, workers, producers), steps)
    requires After(Init(max, workers, producers), steps).stop.AllNotified?
    requires CanRun(After(Init(max, workers, producers), steps), later)
    ensures var s := After(After(Init(max, workers, producers), steps), later);
      !s.running && forall w :: w in s.workers ==> !s.workers[w].Waiting? && !s.workers[w].Deciding?
  {
    InitKeeps(max, workers, producers);
    RunKeeps(Init(max, workers, producers), steps);
    StaysStopped(After(Init(max, workers, producers), steps), later);
    RunKeeps(After(Init(max, workers, producers), steps), later);
  }

  lemma {:induction false} StaysStopped(s: Pool, steps: seq<Step>)
    requires s.stop.AllNotified? && CanRun(s, steps)
    ensures After(s, steps).stop.AllNotified?
    decreases |steps|
  {
    if steps != [] {
      StaysStopped(Next(s, steps[0]), steps[1..]);
    }
  }

  // ----- what `stop` leaves behind -----

  /** The pool has stopped and its threads are gone. */
  ghost predicate AllExited(s: Pool) {
    !s.running && s.workers != map[] && forall w :: w in s.workers ==> s.workers[w].Exited?
  }

  /** Nobody takes a task any more: the queue only grows, and a full one stays as it is. */
  lemma ExitedStep(s: Pool, step: Step)
    requires Inv(s) && AllExited(s) && Enabled(s, step)
    ensures var t := Next(s, step);
      && AllExited(t) && t.taken == s.taken && s.queue <= t.queue && t.max == s.max
          && t.producers.Keys == s.producers.Keys
      && (|s.queue| == s.max ==> forall p :: p in s.producers && !s.producers[p].Away? ==> !t.producers[p].Away?)
  {
    hide WorkersNotified, ProducersNotified;
    match step {
      case NotifyAll =>
        assert Next(s, step).workers.Keys == s.workers.Keys;
      case _ =>
    }
  }

  lemma {:induction false} ExitedRun(s: Pool, steps: seq<Step>)
    requires Inv(s) && AllExited(s) && CanRun(s, steps)
    ensures var t := After(s, steps);
      && AllExited(t) && t.taken == s.taken && s.queue <= t.queue && t.max == s.max
          && t.producers.Keys == s.producers.Keys
      && (|s.queue| == s.max ==> forall p :: p in s.producers && !s.producers[p].Away? ==> !t.producers[p].Away?)
    decreases |steps|
  {
    if steps != [] {
      ExitedStep(s, steps[0]);
      StepKeeps(s, steps[0]);
      var t := Next(s, steps[0]);
      ExitedRun(t, steps[1..]);
      if |s.queue| == s.max {
        assert |t.queue| <= t.max;
      }
    }
  }

  /** Whatever is queued when the last thread exits stays there for ever. */
  lemma QueuedIsLeft(max: nat, workers: set<nat>, producers: set<nat>, steps: seq<Step>, later: seq<Step>)
    requires max > 0 && CanRun(Init(max, workers, producers), steps)
    requires AllExited(After(Init(max, workers, producers), steps))
    requires CanRun(After(Init(max, workers, producers), steps), later)
    ensures var s := After(Init(max, workers, producers), steps);
      s.queue <= After(s, later).queue && After(s, later).taken == s.taken
  {
    InitKeeps(max, workers, producers);
    RunKeeps(Init(max, workers, producers), steps);
    ExitedRun(After(Init(max, workers, producers), steps), later);
  }

  /** The task of this producer is accepted in this run. */
  ghost predicate Accepts(s: Pool, p: nat, later: seq<Step>) {
    CanRun(s, later) && p in After(s, later).producers && After(s, later).producers[p].Away?
  }

  /** No producer's wait ends by itself in this run. */
  predicate WithoutSpurious(steps: seq<Step>) {
    forall i :: 0 <= i < |steps| ==> !steps[i].ProducerSpurious?
  }

  /** A producer that has come, or has been notified, goes on to test the queue; one that sleeps does not. */
  predicate Awake(producer: Producer) {
    producer.Offering? || producer.Notified?
  }

  ghost function AwakeProducers(producers: map<nat, Producer>): set<nat> {
    set p | p in producers && Awake(producers[p])
  }

  /** Nobody wakes a producer any more. */
  lemma SleeperStep(s: Pool, step: Step, p: nat)
    requires AllExited(s) && Enabled(s, step) && !step.ProducerSpurious? && p in s.producers && s.producers[p].Blocked?
    ensures AllExited(Next(s, step)) && Next(s, step).producers.Keys == s.producers.Keys
    ensures Next(s, step).producers[p].Blocked?
  {
    assert step.NotifyAll? ==> Next(s, step).workers.Keys == s.workers.Keys;
  }

  lemma {:induction false} SleeperSleepsOn(s: Pool, steps: seq<Step>, p: nat)
    requires AllExited(s) && CanRun(s, steps) && WithoutSpurious(steps)
    requires p in s.producers && s.producers[p].Blocked?
    ensures p in After(s, steps).producers && After(s, steps).producers[p].Blocked?
    decreases |steps|
  {
    if steps != [] {
      assert !steps[0].ProducerSpurious?;
      SleeperStep(s, steps[0], p);
      SleeperSleepsOn(Next(s, steps[0]), steps[1..], p);
    }
  }

  /**
   `stop` notifies no producer. Once all threads have exited, one that has not returned can return exactly if it is
   awake and the queue has a place; if its wait may also end by itself, exactly if the queue has a place.
   */
  lemma ProducerReturnsIffAwakeAndRoom(max: nat, workers: set<nat>, producers: set<nat>, steps: seq<Step>, p: nat)
    requires max > 0 && CanRun(Init(max, workers, producers), steps)
    requires var s := After(Init(max, workers, producers), steps);
      AllExited(s) && p in s.producers && !s.producers[p].Away?
    ensures var s := After(Init(max, workers, producers), steps);
      && ((exists later :: Accepts(s, p, later) && WithoutSpurious(later)) <==>
            Awake(s.producers[p]) && |s.queue| < s.max)
      && ((exists later :: Accepts(s, p, later)) <==> |s.queue| < s.max)
  {
    var s := After(Init(max, workers, producers), steps);
    InitKeeps(max, workers, producers);
    RunKeeps(Init(max, workers, producers), steps);
    if |s.queue| < s.max {
      var later := PutWhenRoom(s, p);
      assert Accepts(s, p, later);
    } else {
      forall later | CanRun(s, later) ensures !Accepts(s, p, later) {
        ExitedRun(s, later);
      }
    }
    if s.producers[p].Blocked? {
      forall later | CanRun(s, later) && WithoutSpurious(later) ensures !Accepts(s, p, later) {
        SleeperSleepsOn(s, later, p);
      }
    }
  }

  lemma PutWhenRoom(s: Pool, p: nat) returns (later: seq<Step>)
    requires AllExited(s) && p in s.producers && !s.producers[p].Away? && |s.queue| < s.max
    ensures Accepts(s, p, later) && (Awake(s.producers[p]) ==> WithoutSpurious(later))
  {
    if s.producers[p].Blocked? {
      RunTwo(s, ProducerSpurious(p), TryPut(p, None), []);
      later := [ProducerSpurious(p), TryPut(p, None)] + [];
    } else {
      assert Enabled(s, TryPut(p, None));
      later := [TryPut(p, None)];
      assert later[1..] == [];
    }
  }

  lemma RunTwo(s: Pool, a: Step, b: Step, later: seq<Step>)
    requires Enabled(s, a) && Enabled(Next(s, a), b) && CanRun(Next(Next(s, a), b), later)
    ensures CanRun(s, [a, b] + later) && After(s, [a, b] + later) == After(Next(Next(s, a), b), later)
  {
    hide Next, Enabled;
    assert ([a, b] + later)[1..] == [b] + later && ([b] + later)[1..] == later;
  }

  /** None of the producers sleeps, and there is a place for each that has not returned. */
  ghost predicate PlaceForAll(s: Pool) {
    !SomeBlocked(s.producers) && |s.queue| + |AwakeProducers(s.producers)| <= s.max
  }

  lemma AwakeMoves(producers: map<nat, Producer>, p: nat, to: Producer)
    requires p in producers && Awake(producers[p]) && !Awake(to)
    ensures AwakeProducers(producers[p := to]) == AwakeProducers(producers) - {p}
    ensures p in AwakeProducers(producers)
  {
  }

  /** A producer that puts its task uses up one place; one that finds none falls asleep. */
  lemma PutKeepsPlaces(s: Pool, p: nat, wakes: Option<nat>)
    requires |s.queue| <= s.max && Enabled(s, TryPut(p, wakes))
    ensures PlaceForAll(Next(s, TryPut(p, wakes))) <==> PlaceForAll(s)
  {
    hide AwakeProducers, WakesWorker;
    var t := Next(s, TryPut(p, wakes));
    AwakeMoves(s.producers, p, t.producers[p]);
    if MustWaitToPut(s.queue, s.max) {
      assert t.producers[p].Blocked?;
    } else if q :| q in s.producers && s.producers[q].Blocked? {
      assert t.producers[q].Blocked?;
    }
  }

  lemma StepKeepsPlaces(s: Pool, step: Step)
    requires Inv(s) && AllExited(s) && Enabled(s, step) && !step.ProducerSpurious?
    ensures PlaceForAll(Next(s, step)) <==> PlaceForAll(s)
  {
    hide PlaceForAll;
    var t := Next(s, step);
    match step {
      case TryPut(p, wakes) => PutKeepsPlaces(s, p, wakes);
      case _ => SamePlaces(s, t);
    }
  }

  lemma SamePlaces(s: Pool, t: Pool)
    requires t.producers == s.producers && t.queue == s.queue && t.max == s.max
    ensures PlaceForAll(t) <==> PlaceForAll(s)
  {
  }

  lemma {:induction false} RunKeepsPlaces(s: Pool, steps: seq<Step>)
    requires Inv(s) && AllExited(s) && CanRun(s, steps) && WithoutSpurious(steps)
    ensures PlaceForAll(After(s, steps)) <==> PlaceForAll(s)
    ensures Inv(After(s, steps)) && AllExited(After(s, steps))
    decreases |steps|
  {
    if steps != [] {
      hide Inv, PlaceForAll;
      assert !steps[0].ProducerSpurious?;
      StepKeepsPlaces(s, steps[0]);
      ExitedStep(s, steps[0]);
      StepKeeps(s, steps[0]);
      RunKeepsPlaces(Next(s, steps[0]), steps[1..]);
    }
  }

  /** When nothing more can happen, nobody is awake. */
  lemma StuckMeansAsleep(s: Pool)
    requires AllExited(s) && forall step :: Enabled(s, step) ==> Optional(step)
    ensures AwakeProducers(s.producers) == {}
    ensures !SomeBlocked(s.producers) <==> forall p :: p in s.producers ==> s.producers[p].Away?
  {
    forall p | p in s.producers ensures !Awake(s.producers[p]) {
      assert WakesWorker(s, None);
      assert !Enabled(s, TryPut(p, None));
    }
  }

  /**
   Once all threads have exited, and with no wait that ends by itself: however the producers go on, when nothing more
   can happen all of them have returned exactly if none slept and there was a place for each.
   */
  lemma AllReturnIffPlaceForAll(max: nat, workers: set<nat>, producers: set<nat>, steps: seq<Step>, later: seq<Step>)
    requires max > 0 && CanRun(Init(max, workers, producers), steps)
    requires AllExited(After(Init(max, workers, producers), steps))
    requires CanRun(After(Init(max, workers, producers), steps), later) && WithoutSpurious(later)
    requires var t := After(After(Init(max, workers, producers), steps), later);
      forall step :: Enabled(t, step) ==> Optional(step)
    ensures var s := After(Init(max, workers, producers), steps); var t := After(s, later);
      (forall p :: p in t.producers ==> t.producers[p].Away?) <==>
      !SomeBlocked(s.producers) && |s.queue| + |AwakeProducers(s.producers)| <= s.max
  {
    InitKeeps(max, workers, producers);
    RunKeeps(Init(max, workers, producers), steps);
    var s := After(Init(max, workers, producers), steps);
    RunKeepsPlaces(s, later);
    StuckMeansAsleep(After(s, later));
  }

  /** There is always such a way to go on. */
  lemma {:induction false} ExitedSettles(s: Pool) returns (later: seq<Step>)
    requires Inv(s) && AllExited(s)
    ensures CanRun(s, later) && WithoutSpurious(later)
    ensures forall step :: Enabled(After(s, later), step) ==> Optional(step)
    decreases |AwakeProducers(s.producers)|, s.stop.FlagCleared?
  {
    if step :| Enabled(s, step) && !Optional(step) {
      ExitedStep(s, step);
      StepKeeps(s, step);
      ExitedProgress(s, step);
      var rest := ExitedSettles(Next(s, step));
      later := [step] + rest;
      assert later[1..] == rest;
    } else {
      later := [];
    }
  }

  lemma ExitedProgress(s: Pool, step: Step)
    requires AllExited(s) && Enabled(s, step) && !Optional(step)
    ensures var t := Next(s, step);
      |AwakeProducers(t.producers)| < |AwakeProducers(s.producers)|
      || (t.producers == s.producers && s.stop.FlagCleared? && !t.stop.FlagCleared?)
  {
    hide AwakeProducers;
    match step {
      case TryPut(p, _) => AwakeMoves(s.producers, p, Next(s, step).producers[p]);
      case _ =>
    }
  }

  /** One thread and one place, taken by the first of two producers. */
  const PlaceTaken := Pool(1, [7], true, map[0 := Idle], map[0 := Away, 1 := Away], NotStopped, [7], [])

  const SecondAsleep := PlaceTaken.(producers := map[0 := Away, 1 := Blocked(8)])

  lemma FirstPuts()
    ensures var s := Init(1, {0}, {0, 1});
      && Enabled(s, Offer(0, 7)) && Enabled(Next(s, Offer(0, 7)), TryPut(0, None))
      && Next(Next(s, Offer(0, 7)), TryPut(0, None)) == PlaceTaken
  {
    var s := Init(1, {0}, {0, 1});
    assert 0 in s.workers;
    var t := Next(Next(s, Offer(0, 7)), TryPut(0, None));
    assert t.workers == map[0 := Idle] && t.producers == map[0 := Away, 1 := Away];
    assert [] + [7] == [7];
  }

  lemma SecondSleeps()
    ensures var s := PlaceTaken;
      && Enabled(s, Offer(1, 8)) && Enabled(Next(s, Offer(1, 8)), TryPut(1, None))
      && Next(Next(s, Offer(1, 8)), TryPut(1, None)) == SecondAsleep
  {
    var s := PlaceTaken;
    assert 0 in s.workers;
    assert Next(Next(s, Offer(1, 8)), TryPut(1, None)).producers == map[0 := Away, 1 := Blocked(8)];
  }

  lemma ThreadLeaves()
    ensures var s := SecondAsleep;
      && Enabled(s, ClearFlag) && Enabled(Next(s, ClearFlag), CheckRunning(0))
      && var t := Next(Next(s, ClearFlag), CheckRunning(0));
         AllExited(t) && t.queue == [7] && 1 in t.producers && t.producers[1] == Blocked(8)
  {
    assert 0 in Next(Next(SecondAsleep, ClearFlag), CheckRunning(0)).workers;
  }

  /** A pool is left with a task in its queue and a producer asleep. */
  ghost predicate LeavesBehind(s: Pool, steps: seq<Step>, task: Task, p: nat) {
    && CanRun(s, steps) && AllExited(After(s, steps))
    && task in After(s, steps).queue && p in After(s, steps).producers && After(s, steps).producers[p].Blocked?
  }

  /** Such a run: one place, a task in it, a second producer asleep, and a worker that sees the flag first. */
  lemma StopLeavesProducerAsleep()
    ensures LeavesBehind(
      Init(1, {0}, {0, 1}),
      [Offer(0, 7), TryPut(0, None), Offer(1, 8), TryPut(1, None), ClearFlag, CheckRunning(0)],
      7, 1)
  {
    hide Next, Enabled, AllExited;
    var s := Init(1, {0}, {0, 1});
    var last := [ClearFlag, CheckRunning(0)] + [];
    var later := [Offer(1, 8), TryPut(1, None)] + last;
    FirstPuts();
    SecondSleeps();
    ThreadLeaves();
    RunTwo(SecondAsleep, ClearFlag, CheckRunning(0), []);
    RunTwo(PlaceTaken, Offer(1, 8), TryPut(1, None), last);
    RunTwo(s, Offer(0, 7), TryPut(0, None), later);
    assert [Offer(0, 7), TryPut(0, None)] + later
        == [Offer(0, 7), TryPut(0, None), Offer(1, 8), TryPut(1, None), ClearFlag, CheckRunning(0)];
  }

  /** Three producers and one place: the thread takes the only task and leaves, having notified one of two sleepers. */
  const TwoSleepers := Pool(1, [7], true, map[0 := Idle],
    map[0 := Away, 1 := Blocked(8), 2 := Blocked(9)], NotStopped, [7], [])

  const FirstTaken := Pool(1, [], true, map[0 := Idle],
    map[0 := Away, 1 := Notified(8), 2 := Blocked(9)], NotStopped, [7], [7])

  lemma OfferAndPut(s: Pool, p: nat, task: Task)
    requires p in s.producers && s.producers[p].Away? && s.running && s.workers == map[0 := Idle]
    ensures Enabled(s, Offer(p, task)) && Enabled(Next(s, Offer(p, task)), TryPut(p, None))
    ensures Next(Next(s, Offer(p, task)), TryPut(p, None)) ==
      if |s.queue| >= s.max then s.(producers := s.producers[p := Blocked(task)])
      else s.(producers := s.producers[p := Away], queue := s.queue + [task], accepted := s.accepted + [task])
  {
    assert 0 in s.workers;
    assert s.producers[p := Offering(task)][p := Blocked(task)] == s.producers[p := Blocked(task)];
    assert s.producers[p := Offering(task)][p := Away] == s.producers[p := Away];
  }

  lemma ThreePut()
    ensures var steps := [Offer(0, 7), TryPut(0, None), Offer(1, 8), TryPut(1, None), Offer(2, 9), TryPut(2, None)];
      CanRun(Init(1, {0}, {0, 1, 2}), steps) && After(Init(1, {0}, {0, 1, 2}), steps) == TwoSleepers
  {
    hide Next, Enabled;
    var s := Init(1, {0}, {0, 1, 2});
    assert s.workers == map[0 := Idle] && s.producers == map[0 := Away, 1 := Away, 2 := Away];
    var a := s.(producers := s.producers[0 := Away], queue := [7], accepted := [7]);
    assert [] + [7] == [7];
    var b := a.(producers := a.producers[1 := Blocked(8)]);
    OfferAndPut(s, 0, 7);
    OfferAndPut(a, 1, 8);
    OfferAndPut(b, 2, 9);
    assert b.producers[2 := Blocked(9)] == TwoSleepers.producers;
    RunTwo(b, Offer(2, 9), TryPut(2, None), []);
    RunTwo(a, Offer(1, 8), TryPut(1, None), [Offer(2, 9), TryPut(2, None)] + []);
    RunTwo(s, Offer(0, 7), TryPut(0, None), [Offer(1, 8), TryPut(1, None)] + ([Offer(2, 9), TryPut(2, None)] + []));
    assert [Offer(0, 7), TryPut(0, None)] + ([Offer(1, 8), TryPut(1, None)] + ([Offer(2, 9), TryPut(2, None)] + []))
        == [Offer(0, 7), TryPut(0, None), Offer(1, 8), TryPut(1, None), Offer(2, 9), TryPut(2, None)];
  }

  lemma ThreadTakes()
    ensures var s := TwoSleepers;
      && Enabled(s, CheckRunning(0)) && Enabled(Next(s, CheckRunning(0)), TryTake(0, Some(1)))
      && Next(Next(s, CheckRunning(0)), TryTake(0, Some(1))) == FirstTaken
  {
    var s := TwoSleepers;
    var t := s.(workers := map[0 := Entering]);
    assert Next(s, CheckRunning(0)) == t;
    assert MutexFree(t) && WakesProducer(t, Some(1));
    assert t.queue[1..] == [] && [] + [7] == [7];
    assert t.workers[0 := Idle] == FirstTaken.workers;
  }

  lemma ThenLeaves()
    ensures var s := FirstTaken;
      && Enabled(s, ClearFlag) && Enabled(Next(s, ClearFlag), CheckRunning(0))
      && var t := Next(Next(s, ClearFlag), CheckRunning(0));
         AllExited(t) && t.queue == [] && t.max == 1 && t.producers == s.producers
  {
    assert 0 in Next(Next(FirstTaken, ClearFlag), CheckRunning(0)).workers;
  }

  lemma {:induction false} RunConcat(s: Pool, a: seq<Step>, b: seq<Step>)
    requires CanRun(s, a) && CanRun(After(s, a), b)
    ensures CanRun(s, a + b) && After(s, a + b) == After(After(s, a), b)
    decreases |a|
  {
    if a == [] {
      assert a + b == b;
    } else {
      assert (a + b)[1..] == a[1..] + b;
      RunConcat(Next(s, a[0]), a[1..], b);
    }
  }

  /** A producer sleeps although the queue it waits for is empty. */
  ghost predicate SleepsAtEmptyQueue(s: Pool, steps: seq<Step>, p: nat) {
    && CanRun(s, steps) && AllExited(After(s, steps))
    && After(s, steps).queue == [] && p in After(s, steps).producers && After(s, steps).producers[p].Blocked?
  }

  /** Such a run: the thread notifies one of two sleepers, and leaves. */
  lemma RoomLeavesProducerAsleep()
    ensures SleepsAtEmptyQueue(
      Init(1, {0}, {0, 1, 2}),
      [Offer(0, 7), TryPut(0, None), Offer(1, 8), TryPut(1, None), Offer(2, 9), TryPut(2, None)]
      + [CheckRunning(0), TryTake(0, Some(1)), ClearFlag, CheckRunning(0)],
      2)
  {
    hide Next, Enabled, AllExited;
    ThreePut();
    ThreadTakes();
    ThenLeaves();
    RunTwo(FirstTaken, ClearFlag, CheckRunning(0), []);
    RunTwo(TwoSleepers, CheckRunning(0), TryTake(0, Some(1)), [ClearFlag, CheckRunning(0)] + []);
    var last := [CheckRunning(0), TryTake(0, Some(1))] + ([ClearFlag, CheckRunning(0)] + []);
    assert last == [CheckRunning(0), TryTake(0, Some(1)), ClearFlag, CheckRunning(0)];
    RunConcat(
      Init(1, {0}, {0, 1, 2}),
      [Offer(0, 7), TryPut(0, None), Offer(1, 8), TryPut(1, None), Offer(2, 9), TryPut(2, None)],
      last);
  }
}
