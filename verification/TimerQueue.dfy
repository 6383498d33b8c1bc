/**
 The timer queue's objects: the timers, the ordered set of their entries, and the calls that work on them. They are
 proved to take the steps of `Timers`.
 */
module TimerQueue {
  import opened Timers

  // ----- the objects -----

  class Timer {
    const id: nat
    const interval: int
    const repeat: bool
    var when: int
    var canceled: bool
    ghost const first: int
    ghost var deleted: bool
    ghost var runs: seq<int>

    ghost function Value(): TimerState
      reads this
    {
      TimerState(first, interval, when, canceled, deleted, runs)
    }

    constructor (id: nat, when: int, interval: int)
      ensures this.id == id && (repeat <==> interval > 0)
      ensures Value() == TimerState(when, interval, when, false, false, [])
    {
      this.id, this.when, this.interval, repeat, canceled := id, when, interval, interval > 0, false;
      first, deleted, runs := when, false, [];
    }

    method Run(now: int)
      requires !deleted
      modifies this`runs
      ensures runs == old(runs) + [now]
    {
      runs := runs + [now];
    }

    predicate Expired(now: int)
      reads this
    {
      now >= when
    }

    method Restart()
      requires repeat && !deleted
      modifies this`when
      ensures when == old(when) + interval
    {
      when := when + interval;
    }

    method Cancel()
      requires !canceled && !deleted
      modifies this`canceled
      ensures canceled
    {
      canceled := true;
    }
  }

  /** The first place whose entry does not come before `e`. */
  method LowerBound(s: seq<Entry>, e: Entry) returns (k: nat)
    requires Ordered(s)
    ensures k <= |s|
    ensures forall i :: 0 <= i < k ==> Before(s[i], e)
    ensures forall i :: k <= i < |s| ==> !Before(s[i], e)
  {
    k := 0;
    while k < |s| && Before(s[k], e)
      invariant k <= |s|
      invariant forall i :: 0 <= i < k ==> Before(s[i], e)
    {
      k := k + 1;
    }
  }

  lemma AddIs(q: Queue, timer: nat, when: int, interval: int)
    requires Enabled(q, Add(timer, when, interval))
    ensures Next(q, Add(timer, when, interval)) ==
      Inserted(q.(known := q.known[timer := NewTimer(when, interval)]), Entry(when, timer))
  {
  }

  lemma ForeignAddIs(q: Queue, timer: nat, when: int, interval: int)
    requires Enabled(q, ForeignAdd(timer, when, interval))
    ensures Next(q, ForeignAdd(timer, when, interval)) ==
      q.(known := q.known[timer := NewTimer(when, interval)], tasks := q.tasks + [InsertLater(timer, when)])
  {
  }

  lemma CancelIs(q: Queue, timer: nat)
    requires Alive(q, timer)
    ensures Enabled(q, Cancel(timer)) && Next(q, Cancel(timer)) == Cancelled(q, timer)
    ensures Enabled(q, ForeignCancel(timer)) && Next(q, ForeignCancel(timer))
        == q.(tasks := q.tasks + [CancelLater(timer)])
  {
  }

  /** A queued insertion is of an entry not in the set, and a queued cancellation of a live timer not cancelled. */
  lemma QueuedIsSound(q: Queue)
    requires Inv(q) && Enabled(q, RunQueued)
    ensures q.tasks[0].InsertLater? ==> Entry(q.tasks[0].when, q.tasks[0].timer) !in q.timers
    ensures q.tasks[0].CancelLater? ==> !q.known[q.tasks[0].timer].canceled
    ensures q.tasks != [] && Next(q, RunQueued) == RanQueued(q)
  {
    if q.tasks[0].InsertLater? {
      InsertKeeps(q);
    } else {
      AliveIsNotCancelled(q, q.tasks[0].timer);
    }
  }

  lemma FinishIs(q: Queue)
    requires Enabled(q, FinishTimer)
    ensures var id := q.place.rest[0].timer; var t := q.known[id]; var again := !t.canceled && t.interval > 0;
      Next(q, FinishTimer) == Queue(
        q.now,
        if again then q.timers + {Entry(t.when + t.interval, id)} else q.timers,
        q.known[id := if again then t.(when := t.when + t.interval) else t.(deleted := true)],
        q.fd,
        Batch(q.place.rest[1..], q.place.start, false),
        q.tasks)
  {
  }

  lemma InsertedAt(s: seq<Entry>, k: nat, e: Entry)
    requires Ordered(s) && k <= |s|
    requires forall i :: 0 <= i < k ==> Before(s[i], e)
    requires forall i :: k <= i < |s| ==> !Before(s[i], e)
    ensures var isNew := k == |s| || s[k] != e; var r := if isNew then s[..k] + [e] + s[k..] else s;
      (isNew <==> e !in Elems(s)) && Ordered(r) && Elems(r) == Elems(s) + {e}
    ensures IsLeast(Elems(s) + {e}, e) <==> k == 0
  {
    if k < |s| && s[k] != e {
      forall i | k <= i < |s| ensures Before(e, s[i]) {
        assert i > k ==> Before(s[k], s[i]);
      }
    }
    if k > 0 {
      assert s[0] in Elems(s) + {e} && Before(s[0], e);
    }
    var r := s[..k] + [e] + s[k..];
    assert r[k] == e;
  }

  /** What can happen while a callback runs: its own calls, those of other threads, and time passing. */
  predicate ByCallback(step: Step) {
    step.Tick? || step.Add? || step.Cancel? || step.ForeignAdd? || step.ForeignCancel?
  }

  /** The steps of a batch in which each timer's callback does its share. */
  function BatchWith(callbacks: seq<seq<Step>>): seq<Step> {
    if callbacks == [] then [EndRead]
    else [RunTimer] + callbacks[0] + [FinishTimer] + BatchWith(callbacks[1..])
  }

  /** `heap` holds the timer objects by address; `timers` is the ordered set. */
  class TimerQueue {
    var timers: seq<Entry>
    var heap: map<nat, Timer>
    var fd: Timerfd
    var now: int
    var tasks: seq<QueuedTask>
    ghost var place: Place

    ghost predicate WellFormed()
      reads this, heap.Values
    {
      && Ordered(timers)
      && (forall id :: id in heap ==> heap[id].id == id && (heap[id].repeat <==> heap[id].interval > 0))
    }

    ghost predicate Valid()
      reads this, heap.Values
    {
      WellFormed() && Inv(State())
    }

    ghost function State(): Queue
      reads this, heap.Values
    {
      Queue(now, Elems(timers), map id | id in heap :: heap[id].Value(), fd, place, tasks)
    }

    constructor (now: int)
      ensures Valid() && State() == Init(now) && heap == map[]
    {
      timers, heap, fd, place, tasks := [], map[], Disarmed, Idle, [];
      this.now := now;
    }

    method TimePasses(to: int)
      requires Valid() && now <= to
      modifies this`now, this`fd
      ensures Valid() && State() == Next(old(State()), Tick(to))
    {
      hide Inv;
      StepKeeps(State(), Tick(to));
      now := to;
      if fd.Armed? && fd.deadline <= now {
        fd := Pending;
      }
      assert State() == Next(old(State()), Tick(to));
    }

    method TimerfdSet(when: int)
      modifies this`fd
      ensures fd == Armed(if when < now + 1_000_000 then now + 1_000_000 else when, now)
      ensures fd == Arm(when, now) && State() == old(State()).(fd := Arm(when, now))
      ensures old(WellFormed()) ==> WellFormed()
    {
      var wait := when - now;
      if wait < MILLISECOND {
        wait := MILLISECOND;
      }
      fd := Armed(now + wait, now);
    }

    method Insert(e: Entry) returns (isNew: bool, isFirst: bool)
      requires Ordered(timers)
      modifies this`timers
      ensures Elems(timers) == Elems(old(timers)) + {e}
      ensures State() == old(State()).(timers := Elems(old(timers)) + {e})
      ensures Ordered(timers) && (old(WellFormed()) ==> WellFormed())
      ensures isNew <==> e !in Elems(old(timers))
      ensures isFirst <==> IsLeast(Elems(timers), e)
    {
      hide Ordered, Elems, IsLeast;
      var k := LowerBound(timers, e);
      InsertedAt(timers, k, e);
      isNew := k == |timers| || timers[k] != e;
      isFirst := k == 0;
      if isNew {
        timers := timers[..k] + [e] + timers[k..];
      }
    }

    method Erase(e: Entry)
      requires Ordered(timers)
      modifies this`timers
      ensures Ordered(timers) && Elems(timers) == Elems(old(timers)) - {e}
    {
      var k := LowerBound(timers, e);
      if k < |timers| && timers[k] == e {
        timers := timers[..k] + timers[k + 1..];
      }
    }

    /** Takes out exactly the entries whose time has come, in order. */
    method GetExpired(at: int) returns (entries: seq<Entry>)
      requires Ordered(timers)
      modifies this`timers
      ensures Ordered(timers) && Elems(timers) == Elems(old(timers)) - Due(Elems(old(timers)), at)
      ensures entries == Listing(Due(Elems(old(timers)), at))
    {
      var k := LowerBound(timers, Entry(at + 1, 0));
      entries := timers[..k];
      timers := timers[k..];
      assert old(timers) == entries + timers;
      assert Elems(entries) == Due(Elems(old(timers)), at);
      ListingIsUnique(entries, Listing(Due(Elems(old(timers)), at)));
    }

    /** The objects are what the state says they are. */
    lemma Object(id: nat)
      requires WellFormed()
      ensures var q := State();
        && q.now == now && q.timers == Elems(timers) && q.fd == fd && q.place == place && q.tasks == tasks
        && (id in q.known <==> id in heap)
      ensures id in heap ==>
        && heap[id].id == id && heap[id].Value() == State().known[id]
        && (heap[id].repeat <==> heap[id].interval > 0)
      ensures Ordered(timers)
    {
    }

    method MakeTimer(id: nat, when: int, interval: int)
      requires WellFormed() && id !in heap
      modifies this`heap
      ensures WellFormed() && fresh(heap.Values - old(heap.Values))
      ensures State() == old(State()).(known := old(State()).known[id := NewTimer(when, interval)])
    {
      var timer := new Timer(id, when, interval);
      heap := heap[id := timer];
      assert State().known == old(State()).known[id := timer.Value()];
    }

    /** `queueInLoop`, from another thread. */
    method QueueTask(t: QueuedTask)
      modifies this`tasks
      ensures State() == old(State()).(tasks := old(State()).tasks + [t])
      ensures old(WellFormed()) ==> WellFormed()
    {
      tasks := tasks + [t];
    }

    /** The entry is inserted, and the descriptor armed if it is the first. */
    method InsertAndArm(e: Entry)
      requires WellFormed() && e !in State().timers
      modifies this`timers, this`fd
      ensures WellFormed() && State() == Inserted(old(State()), e)
    {
      hide Elems, Arm, Ordered, State, IsLeast;
      Object(0);
      var isNew, isFirst := Insert(e);
      assert isNew;
      Object(0);
      if isFirst {
        TimerfdSet(e.when);
      }
    }

    /** On the loop thread the timer is inserted at once, from another one its insertion is queued. */
    method AddTimer(id: nat, when: int, interval: int, inLoop: bool)
      requires Valid() && Enabled(State(), if inLoop then Add(id, when, interval) else ForeignAdd(id, when, interval))
      modifies this`timers, this`heap, this`fd, this`tasks
      ensures Valid()
      ensures State() == Next(old(State()), if inLoop then Add(id, when, interval) else ForeignAdd(id, when, interval))
      ensures fresh(heap.Values - old(heap.Values))
    {
      hide Inv, Next, State, Inserted;
      Object(id);
      if inLoop {
        AddKeeps(State(), id, when, interval);
        AddIs(State(), id, when, interval);
        MakeTimer(id, when, interval);
        InsertAndArm(Entry(when, id));
      } else {
        ForeignAddKeeps(State(), id, when, interval);
        ForeignAddIs(State(), id, when, interval);
        MakeTimer(id, when, interval);
        QueueTask(InsertLater(id, when));
      }
    }

    /** The timer is cancelled, its entry erased, and the timer deleted. */
    method CancelNow(id: nat)
      requires WellFormed() && Alive(State(), id) && !State().known[id].canceled
      modifies this`timers, heap.Values
      ensures WellFormed() && State() == Cancelled(old(State()), id)
    {
      hide Elems;
      var timer := heap[id];
      timer.Cancel();
      Erase(Entry(timer.when, id));
      timer.deleted := true;
      assert State().known == Cancelled(old(State()), id).known;
    }

    /** On the loop thread the timer is cancelled at once, from another one that is queued. */
    method CancelTimer(id: nat, inLoop: bool)
      requires Valid() && Alive(State(), id)
      modifies this`timers, this`tasks, heap.Values
      ensures Valid() && State() == Next(old(State()), if inLoop then Cancel(id) else ForeignCancel(id))
    {
      hide Inv, Next, State, Cancelled;
      CancelIs(State(), id);
      if inLoop {
        CancelKeeps(State(), id);
        CancelNow(id);
      } else {
        StepKeeps(State(), ForeignCancel(id));
        QueueTask(CancelLater(id));
      }
    }

    method TakeTask() returns (task: QueuedTask)
      requires tasks != []
      modifies this`tasks
      ensures task == old(State()).tasks[0] && State() == old(State()).(tasks := old(State()).tasks[1..])
      ensures old(WellFormed()) ==> WellFormed()
    {
      task := tasks[0];
      tasks := tasks[1..];
    }

    /** The loop runs the oldest task that another thread has queued. */
    method RunTask()
      requires Valid() && Enabled(State(), RunQueued)
      modifies this`timers, this`fd, this`tasks, heap.Values
      ensures Valid() && State() == Next(old(State()), RunQueued)
    {
      hide Inv, Inserted, Cancelled, State, Next;
      StepKeeps(State(), RunQueued);
      QueuedIsSound(State());
      Object(0);
      var task := TakeTask();
      match task {
        case InsertLater(id, when) => InsertAndArm(Entry(when, id));
        case CancelLater(id) => CancelNow(id);
      }
    }

    method PerformOne(step: Step)
      requires Valid() && Enabled(State(), step) && ByCallback(step)
      modifies this, heap.Values
      ensures Valid() && State() == Next(old(State()), step) && place == old(place)
      ensures fresh(heap.Values - old(heap.Values))
    {
      hide Inv, Next, Elems, Ordered;
      match step {
        case Tick(to) => TimePasses(to);
        case Add(id, when, interval) => AddTimer(id, when, interval, true);
        case Cancel(id) => CancelTimer(id, true);
        case ForeignAdd(id, when, interval) => AddTimer(id, when, interval, false);
        case ForeignCancel(id) => CancelTimer(id, false);
      }
    }

    /** The work of one callback. */
    method Perform(steps: seq<Step>)
      requires Valid() && CanRun(State(), steps)
      requires forall i :: 0 <= i < |steps| ==> ByCallback(steps[i])
      modifies this, heap.Values
      ensures Valid() && State() == After(old(State()), steps) && place == old(place)
      ensures fresh(heap.Values - old(heap.Values))
    {
      hide Inv, Next, Enabled, Ordered, Elems;
      for i := 0 to |steps|
        invariant Valid() && place == old(place)
        invariant CanRun(State(), steps[i..]) && After(State(), steps[i..]) == After(old(State()), steps)
        invariant fresh(heap.Values - old(heap.Values))
      {
        assert steps[i..][0] == steps[i] && steps[i..][1..] == steps[i + 1..];
        PerformOne(steps[i]);
      }
    }

    method RunOne(e: Entry)
      requires Valid() && Enabled(State(), RunTimer) && e == place.rest[0]
      modifies this`place, heap.Values
      ensures Valid() && State() == Next(old(State()), RunTimer) && place == old(place).(ran := true)
    {
      hide Inv, Elems, Ordered, Waits;
      StepKeeps(State(), RunTimer);
      BatchIsDue(State(), 0);
      var timer := heap[e.timer];
      assert timer.Expired(place.start);
      if !timer.canceled {
        timer.Run(now);
      }
      place := place.(ran := true);
      assert State().known == Next(old(State()), RunTimer).known;
      assert State() == Next(old(State()), RunTimer);
    }

    method RestartTimer(timer: Timer)
      requires WellFormed() && timer.id in heap && heap[timer.id] == timer && timer.repeat && !timer.deleted
      modifies timer`when
      ensures WellFormed() && timer.when == old(timer.when) + timer.interval
      ensures State() == old(State()).(known := old(State()).known[timer.id := old(timer.Value()).(when := timer.when)])
    {
      timer.Restart();
      assert State().known == old(State()).known[timer.id := timer.Value()];
    }

    ghost method DeleteTimer(timer: Timer)
      requires WellFormed() && timer.id in heap && heap[timer.id] == timer
      modifies timer`deleted
      ensures WellFormed()
      ensures State() == old(State()).(known := old(State()).known[timer.id := old(timer.Value()).(deleted := true)])
    {
      timer.deleted := true;
      assert State().known == old(State()).known[timer.id := timer.Value()];
    }

    ghost method MoveTo(to: Place)
      modifies this`place
      ensures place == to && State() == old(State()).(place := to)
      ensures old(WellFormed()) ==> WellFormed()
    {
      place := to;
    }

    method FinishOne(e: Entry)
      requires Valid() && Enabled(State(), FinishTimer) && e == place.rest[0]
      modifies this`place, this`timers, heap.Values
      ensures Valid() && State() == Next(old(State()), FinishTimer)
      ensures place == Batch(old(place).rest[1..], old(place).start, false)
    {
      hide Inv, Elems, Ordered, Next, State, WellFormed;
      StepKeeps(State(), FinishTimer);
      FinishIs(State());
      Object(e.timer);
      var timer := heap[e.timer];
      if !timer.canceled && timer.repeat {
        RestartTimer(timer);
        var _, _ := Insert(Entry(timer.when, e.timer));
      } else {
        DeleteTimer(timer);
      }
      MoveTo(Batch(place.rest[1..], place.start, false));
    }

    /** One expired timer: its callback runs, with what the callback does, and the timer is restarted or deleted. */
    method HandleOne(e: Entry, callbacks: seq<seq<Step>>)
      requires Valid() && CanRun(State(), BatchWith(callbacks)) && callbacks != []
      requires place.Batch? && place.rest != [] && e == place.rest[0]
      requires forall j :: 0 <= j < |callbacks[0]| ==> ByCallback(callbacks[0][j])
      modifies this, heap.Values
      ensures Valid() && place == Batch(old(place).rest[1..], old(place).start, false)
      ensures CanRun(State(), BatchWith(callbacks[1..]))
      ensures After(State(), BatchWith(callbacks[1..])) == After(old(State()), BatchWith(callbacks))
      ensures fresh(heap.Values - old(heap.Values))
    {
      hide Inv, Next, State, WellFormed;
      ghost var rest := [FinishTimer] + BatchWith(callbacks[1..]);
      assert BatchWith(callbacks)[1..] == callbacks[0] + rest;
      RunOne(e);
      RunConcat(State(), callbacks[0], rest);
      Perform(callbacks[0]);
      assert rest[1..] == BatchWith(callbacks[1..]);
      FinishOne(e);
    }

    method BeginBatch() returns (entries: seq<Entry>)
      requires Valid() && Enabled(State(), BeginRead)
      modifies this`timers, this`fd, this`place
      ensures Valid() && State() == Next(old(State()), BeginRead) && place == Batch(entries, now, false)
    {
      hide Inv, Ordered, Elems;
      StepKeeps(State(), BeginRead);
      if fd.Pending? {
        fd := Disarmed;
      }
      entries := GetExpired(now);
      place := Batch(entries, now, false);
      assert State() == Next(old(State()), BeginRead);
    }

    method Rearm()
      requires Valid() && Enabled(State(), EndRead)
      modifies this`fd, this`place
      ensures Valid() && State() == Next(old(State()), EndRead)
    {
      hide Inv;
      StepKeeps(State(), EndRead);
      if timers != [] {
        assert timers[0] in Elems(timers);
        assert IsLeast(Elems(timers), timers[0]);
        TimerfdSet(timers[0].when);
      }
      place := Idle;
      assert State() == Next(old(State()), EndRead);
    }

    /** All expired timers run in order, with whatever their callbacks do, and the descriptor is armed again. */
    method HandleRead(callbacks: seq<seq<Step>>)
      requires Valid() && CanRun(State(), [BeginRead] + BatchWith(callbacks))
      requires forall i, j :: 0 <= i < |callbacks| && 0 <= j < |callbacks[i]| ==> ByCallback(callbacks[i][j])
      modifies this, heap.Values
      ensures Valid() && State() == After(old(State()), [BeginRead] + BatchWith(callbacks))
      ensures fresh(heap.Values - old(heap.Values))
    {
      hide Inv, Next, State, WellFormed;
      ghost var goal := After(State(), [BeginRead] + BatchWith(callbacks));
      assert ([BeginRead] + BatchWith(callbacks))[1..] == BatchWith(callbacks);
      var entries := BeginBatch();
      assert callbacks[0..] == callbacks && entries[0..] == entries;
      for i := 0 to |entries|
        invariant Valid() && place.Batch? && place.rest == entries[i..]
        invariant i <= |callbacks|
        invariant CanRun(State(), BatchWith(callbacks[i..])) && After(State(), BatchWith(callbacks[i..])) == goal
        invariant fresh(heap.Values - old(heap.Values))
      {
        Object(0);
        assert callbacks[i..] != [];
        assert callbacks[i..][1..] == callbacks[i + 1..];
        HandleOne(entries[i], callbacks[i..]);
      }
      Object(0);
      assert callbacks[|entries|..] == [];
      Rearm();
    }
  }
}
