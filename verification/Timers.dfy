/**
 The timer queue: an ordered set of timers keyed by due time, and one hardware timer (`timerfd`) that has to be
 armed for the earliest of them. Times are nanoseconds; a timer's address is a positive number, 0 is null.
 */
module Timers {
  import opened Common

  const MILLISECOND: int := 1_000_000

  datatype Entry = Entry(when: int, timer: nat)

  predicate Before(a: Entry, b: Entry) {
    a.when < b.when || (a.when == b.when && a.timer < b.timer)
  }

  ghost predicate Ordered(s: seq<Entry>) {
    forall i, j :: 0 <= i < j < |s| ==> Before(s[i], s[j])
  }

  ghost function Elems(s: seq<Entry>): set<Entry> {
    set e | e in s
  }

  ghost function Due(timers: set<Entry>, now: int): set<Entry> {
    set e | e in timers && e.when <= now
  }

  ghost predicate IsLeast(timers: set<Entry>, e: Entry) {
    e in timers && forall x :: x in timers && x != e ==> Before(e, x)
  }

  lemma {:induction false} HasLeast(timers: set<Entry>)
    requires timers != {}
    ensures exists e :: IsLeast(timers, e)
  {
    var x :| x in timers;
    var rest := timers - {x};
    if rest == {} {
      assert timers == {x};
      assert IsLeast(timers, x);
    } else {
      HasLeast(rest);
      var y :| IsLeast(rest, y);
      assert forall z :: z in timers && z != x ==> z in rest;
      assert IsLeast(timers, if Before(x, y) then x else y);
    }
  }

  ghost function Least(timers: set<Entry>): (e: Entry)
    requires timers != {}
    ensures IsLeast(timers, e)
  {
    HasLeast(timers);
    var e :| IsLeast(timers, e);
    e
  }

  /** The elements of a set in their order. */
  ghost function Listing(timers: set<Entry>): (s: seq<Entry>)
    ensures Ordered(s) && Elems(s) == timers
  {
    if timers == {} then [] else
      var e := Least(timers);
      var rest := Listing(timers - {e});
      assert forall x :: x in rest <==> x in timers - {e} by {
        assert forall x :: x in Elems(rest) <==> x in timers - {e};
      }
      [e] + rest
  }

  lemma {:induction false} ListingIsUnique(a: seq<Entry>, b: seq<Entry>)
    requires Ordered(a) && Ordered(b) && Elems(a) == Elems(b)
    ensures a == b
  {
    assert a != [] ==> a[0] in Elems(b);
    assert b != [] ==> b[0] in Elems(a);
    if a != [] && b != [] {
      assert a[0] == b[0];
      TailElems(a);
      TailElems(b);
      ListingIsUnique(a[1..], b[1..]);
    }
  }

  lemma TailElems(s: seq<Entry>)
    requires Ordered(s) && s != []
    ensures Elems(s[1..]) == Elems(s) - {s[0]} && Ordered(s[1..])
  {
    forall e | e in Elems(s) - {s[0]} ensures e in s[1..] {
      var i :| 0 <= i < |s| && s[i] == e;
      assert s[1..][i - 1] == e;
    }
    forall e | e in s[1..] ensures e in s && e != s[0] {
      var i :| 0 <= i < |s[1..]| && s[1..][i] == e;
      assert s[i + 1] == e && Before(s[0], s[i + 1]);
    }
  }

  // ----- the steps -----

  /** `first` and `runs` are history: when the timer was first due, and the times at which its callback ran. */
  datatype TimerState = TimerState(
    first: int, interval: int, when: int, canceled: bool, deleted: bool, runs: seq<int>)
  {
    predicate Repeats() {
      interval > 0
    }
  }

  /** `setAt` is the time at which the deadline was set. */
  datatype Timerfd = Disarmed | Armed(deadline: int, setAt: int) | Pending

  /** In a batch: the expired entries not yet finished, the time at which it began, and whether the first has run. */
  datatype Place = Idle | Batch(rest: seq<Entry>, start: int, ran: bool)

  /** What other threads have queued on the loop; an insertion has copied the due time. */
  datatype QueuedTask = InsertLater(timer: nat, when: int) | CancelLater(timer: nat)

  /** `known` holds every timer ever made. */
  datatype Queue = Queue(
    now: int,
    timers: set<Entry>,
    known: map<nat, TimerState>,
    fd: Timerfd,
    place: Place,
    tasks: seq<QueuedTask>)

  datatype Step =
    | Tick(to: int)
    | Add(timer: nat, when: int, interval: int)
    | Cancel(timer: nat)
    | ForeignAdd(timer: nat, when: int, interval: int)
    | ForeignCancel(timer: nat)
    | RunQueued
    | BeginRead
    | RunTimer
    | FinishTimer
    | EndRead

  function Init(now: int): Queue {
    Queue(now, {}, map[], Disarmed, Idle, [])
  }

  function Arm(when: int, now: int): Timerfd {
    Armed(now + if when - now < MILLISECOND then MILLISECOND else when - now, now)
  }

  function Elapse(fd: Timerfd, now: int): Timerfd {
    if fd.Armed? && fd.deadline <= now then Pending else fd
  }

  /** A read takes what is there; on a descriptor that has not fired it fails and changes nothing. */
  function ReadFd(fd: Timerfd): Timerfd {
    if fd.Pending? then Disarmed else fd
  }

  predicate Alive(q: Queue, timer: nat) {
    timer in q.known && !q.known[timer].deleted
  }

  /**
   A live timer may be cancelled at any time, from a callback of the running batch or while its insertion is still
   queued too. The batch is entered when the descriptor is readable, or was so when the loop polled: a handler of the
   same poll may have armed it again. Queued tasks run outside of the batch. A batch goes on, and a queued cancellation
   runs, only while its timer is alive: the code has no meaning otherwise.
   */
  ghost predicate Enabled(q: Queue, step: Step) {
    match step
    case Tick(to) => q.now <= to
    case Add(timer, _, _) => timer > 0 && timer !in q.known
    case Cancel(timer) => Alive(q, timer)
    case ForeignAdd(timer, _, _) => timer > 0 && timer !in q.known
    case ForeignCancel(timer) => Alive(q, timer)
    case RunQueued => q.place.Idle? && q.tasks != [] && (q.tasks[0].CancelLater? ==> Alive(q, q.tasks[0].timer))
    case BeginRead => q.place.Idle? && !q.fd.Disarmed?
    case RunTimer => q.place.Batch? && q.place.rest != [] && !q.place.ran && Alive(q, q.place.rest[0].timer)
    case FinishTimer => q.place.Batch? && q.place.rest != [] && q.place.ran && Alive(q, q.place.rest[0].timer)
    case EndRead => q.place.Batch? && q.place.rest == []
  }

  function NewTimer(when: int, interval: int): TimerState {
    TimerState(when, interval, when, false, false, [])
  }

  /** The entry goes into the ordered set; a new first one arms the descriptor. */
  ghost function Inserted(q: Queue, e: Entry): Queue {
    q.(timers := q.timers + {e}, fd := if IsLeast(q.timers + {e}, e) then Arm(e.when, q.now) else q.fd)
  }

  function Cancelled(q: Queue, timer: nat): Queue
    requires Alive(q, timer)
  {
    var t := q.known[timer];
    q.(timers := q.timers - {Entry(t.when, timer)}, known := q.known[timer := t.(canceled := true, deleted := true)])
  }

  ghost function RanQueued(q: Queue): Queue
    requires Enabled(q, RunQueued)
  {
    var later := q.(tasks := q.tasks[1..]);
    match q.tasks[0]
    case InsertLater(timer, when) => Inserted(later, Entry(when, timer))
    case CancelLater(timer) => Cancelled(later, timer)
  }

  ghost function Next(q: Queue, step: Step): Queue
    requires Enabled(q, step)
  {
    match step
    case Tick(to) => q.(now := to, fd := Elapse(q.fd, to))
    case Add(timer, when, interval) =>
      Inserted(q.(known := q.known[timer := NewTimer(when, interval)]), Entry(when, timer))
    case Cancel(timer) => Cancelled(q, timer)
    case ForeignAdd(timer, when, interval) =>
      q.(known := q.known[timer := NewTimer(when, interval)], tasks := q.tasks + [InsertLater(timer, when)])
    case ForeignCancel(timer) => q.(tasks := q.tasks + [CancelLater(timer)])
    case RunQueued => RanQueued(q)
    case BeginRead =>
      var due := Due(q.timers, q.now);
      q.(timers := q.timers - due, fd := ReadFd(q.fd), place := Batch(Listing(due), q.now, false))
    case RunTimer =>
      var e := q.place.rest[0];
      var t := q.known[e.timer];
      q.(known := q.known[e.timer := if t.canceled then t else t.(runs := t.runs + [q.now])],
         place := q.place.(ran := true))
    case FinishTimer =>
      var e := q.place.rest[0];
      var t := q.known[e.timer];
      var place := Batch(q.place.rest[1..], q.place.start, false);
      if !t.canceled && t.Repeats() then
        q.(timers := q.timers + {Entry(t.when + t.interval, e.timer)},
           known := q.known[e.timer := t.(when := t.when + t.interval)],
           place := place)
      else
        q.(known := q.known[e.timer := t.(deleted := true)], place := place)
    case EndRead =>
      q.(fd := if q.timers == {} then q.fd else Arm(Least(q.timers).when, q.now), place := Idle)
  }

  ghost predicate CanRun(q: Queue, steps: seq<Step>)
    decreases |steps|
  {
    steps == [] || (Enabled(q, steps[0]) && CanRun(Next(q, steps[0]), steps[1..]))
  }

  ghost function After(q: Queue, steps: seq<Step>): Queue
    requires CanRun(q, steps)
    decreases |steps|
  {
    if steps == [] then q else After(Next(q, steps[0]), steps[1..])
  }

  lemma {:induction false} RunConcat(q: Queue, a: seq<Step>, b: seq<Step>)
    ensures CanRun(q, a + b) <==> CanRun(q, a) && CanRun(After(q, a), b)
    ensures CanRun(q, a + b) ==> After(q, a + b) == After(After(q, a), b)
    decreases |a|
  {
    if a == [] {
      assert a + b == b;
    } else {
      assert (a + b)[1..] == a[1..] + b;
      if Enabled(q, a[0]) {
        RunConcat(Next(q, a[0]), a[1..], b);
      }
    }
  }

  // ----- what every step keeps -----

  /** When the run with this number is due, the first being number 0. */
  function DueAt(t: TimerState, j: nat): int {
    t.first + j * t.interval
  }

  /** No run came early, and a timer that does not repeat ran at most once. */
  ghost predicate RunsInTime(t: TimerState, now: int) {
    && (t.Repeats() ==> forall j :: 0 <= j < |t.runs| ==> DueAt(t, j) <= t.runs[j] <= now)
    && (!t.Repeats() ==> |t.runs| <= 1 && forall j :: 0 <= j < |t.runs| ==> t.first <= t.runs[j] <= now)
  }

  /** A timer waiting for its next run; `done` runs are behind it. */
  ghost predicate Waits(t: TimerState, done: int) {
    && !t.canceled && !t.deleted
    && 0 <= done
    && (t.Repeats() ==> t.when == DueAt(t, done))
    && (!t.Repeats() ==> done == 0 && t.when == t.first)
  }

  ghost predicate Queued(q: Queue, e: Entry) {
    e.timer in q.known && q.known[e.timer].when == e.when && Waits(q.known[e.timer], |q.known[e.timer].runs|)
  }

  /** An entry whose timer was cancelled before it was inserted. */
  ghost predicate Gone(q: Queue, e: Entry) {
    e.timer in q.known && q.known[e.timer].when == e.when && q.known[e.timer].canceled && q.known[e.timer].deleted
  }

  ghost predicate InRest(q: Queue, timer: nat) {
    q.place.Batch? && Holds(q.place.rest, timer)
  }

  ghost predicate Holds(rest: seq<Entry>, timer: nat) {
    exists k :: 0 <= k < |rest| && rest[k].timer == timer
  }

  ghost predicate InsertQueued(q: Queue, timer: nat) {
    exists i :: 0 <= i < |q.tasks| && q.tasks[i].InsertLater? && q.tasks[i].timer == timer
  }

  /** A timer whose insertion is queued is nowhere else. */
  ghost predicate Inserting(q: Queue, e: Entry) {
    (Queued(q, e) || Gone(q, e)) && e !in q.timers && !InRest(q, e.timer)
  }

  ghost predicate InsertsInv(q: Queue) {
    && (forall i :: 0 <= i < |q.tasks| && q.tasks[i].InsertLater? ==>
          Inserting(q, Entry(q.tasks[i].when, q.tasks[i].timer)))
    && (forall i, j :: 0 <= i < j < |q.tasks| && q.tasks[i].InsertLater? && q.tasks[j].InsertLater? ==>
          q.tasks[i].timer != q.tasks[j].timer)
  }

  /** The first entry of a batch may have run already. */
  ghost predicate InBatch(q: Queue, k: nat)
    requires q.place.Batch? && k < |q.place.rest|
  {
    var e := q.place.rest[k];
    && e.timer in q.known && q.known[e.timer].when == e.when && e.when <= q.place.start
    && Waits(q.known[e.timer], |q.known[e.timer].runs| - if k == 0 && q.place.ran then 1 else 0)
    && e !in q.timers
  }

  /** A timer of the batch that a callback has cancelled is deleted, while its entry stays in the batch. */
  ghost predicate Dangling(q: Queue, k: nat)
    requires q.place.Batch? && k < |q.place.rest|
  {
    var e := q.place.rest[k];
    && e.timer in q.known && q.known[e.timer].when == e.when && e.when <= q.place.start
    && q.known[e.timer].canceled && q.known[e.timer].deleted
    && e !in q.timers
  }

  ghost predicate BatchInv(q: Queue) {
    q.place.Batch? ==>
      && q.place.start <= q.now
      && (q.place.ran ==> q.place.rest != [])
      && (forall k :: 0 <= k < |q.place.rest| ==> InBatch(q, k) || Dangling(q, k))
      && (forall i, j :: 0 <= i < j < |q.place.rest| ==> q.place.rest[i].timer != q.place.rest[j].timer)
  }

  /** Where a live timer is: in the queue, in the batch, or still to be inserted. */
  ghost predicate Placed(q: Queue, timer: nat)
    requires timer in q.known
  {
    var e := Entry(q.known[timer].when, timer);
    e in q.timers || (q.place.Batch? && e in q.place.rest) || InsertQueued(q, timer)
  }

  ghost predicate NoneLost(q: Queue) {
    forall timer :: timer in q.known && !q.known[timer].deleted ==> Placed(q, timer)
  }

  ghost predicate ArmedInTime(q: Queue) {
    match q.fd
    case Pending => true
    case Armed(deadline, setAt) =>
      setAt <= q.now && forall e :: e in q.timers ==> deadline <= e.when || deadline <= setAt + MILLISECOND
    case Disarmed => q.timers == {}
  }

  ghost predicate Inv(q: Queue) {
    && (forall e :: e in q.timers ==> Queued(q, e) || Gone(q, e))
    && (forall timer :: timer in q.known ==> RunsInTime(q.known[timer], q.now))
    && BatchInv(q)
    && InsertsInv(q)
    && NoneLost(q)
    && (q.fd.Armed? ==> q.fd.setAt <= q.now < q.fd.deadline)
    && (q.place.Idle? ==> ArmedInTime(q))
  }

  lemma TickKeeps(q: Queue, to: int)
    requires Inv(q) && Enabled(q, Tick(to))
    ensures Inv(Next(q, Tick(to)))
  {
    var r := Next(q, Tick(to));
    BatchStays(q, r);
    InsertsStay(q, r);
    forall timer | timer in r.known && !r.known[timer].deleted ensures Placed(r, timer) {
      assert Placed(q, timer);
    }
  }

  /** Queued insertions do not notice what happens to other timers. */
  lemma InsertsStay(q: Queue, r: Queue)
    requires InsertsInv(q) && r.tasks == q.tasks
    requires forall i :: 0 <= i < |q.tasks| && q.tasks[i].InsertLater? ==>
      var e := Entry(q.tasks[i].when, q.tasks[i].timer);
      && (e.timer in q.known ==> e.timer in r.known && r.known[e.timer] == q.known[e.timer])
      && (e in r.timers ==> e in q.timers) && (InRest(r, e.timer) ==> InRest(q, e.timer))
    ensures InsertsInv(r)
  {
    hide Waits, InRest;
    forall i | 0 <= i < |r.tasks| && r.tasks[i].InsertLater?
      ensures Inserting(r, Entry(r.tasks[i].when, r.tasks[i].timer))
    {
      assert Inserting(q, Entry(q.tasks[i].when, q.tasks[i].timer));
    }
  }

  /** A batch does not notice what happens to other timers. */
  lemma BatchStays(q: Queue, r: Queue)
    requires BatchInv(q) && q.now <= r.now && r.place == q.place
    requires q.place.Batch? ==> forall k :: 0 <= k < |q.place.rest| ==>
      var e := q.place.rest[k];
      e.timer in q.known ==>
        e.timer in r.known && r.known[e.timer] == q.known[e.timer] && (e in r.timers ==> e in q.timers)
    ensures BatchInv(r)
  {
    if q.place.Batch? {
      forall k | 0 <= k < |r.place.rest| ensures InBatch(r, k) || Dangling(r, k) {
        assert InBatch(q, k) || Dangling(q, k);
      }
    }
  }

  /** A new timer, its insertion queued behind the others, or in front of them. */
  lemma NewKeeps(q: Queue, timer: nat, when: int, interval: int, inFront: bool)
    requires Inv(q) && timer !in q.known
    ensures var task := InsertLater(timer, when);
      Inv(q.(known := q.known[timer := NewTimer(when, interval)],
             tasks := if inFront then [task] + q.tasks else q.tasks + [task]))
    ensures Entry(when, timer) !in q.timers
  {
    hide Waits;
    var task := InsertLater(timer, when);
    var r := q.(known := q.known[timer := NewTimer(when, interval)],
                tasks := if inFront then [task] + q.tasks else q.tasks + [task]);
    assert Entry(when, timer) in q.timers ==> Queued(q, Entry(when, timer)) || Gone(q, Entry(when, timer));
    NewRuns(when, interval, q.now);
    NewIsNowhere(q, timer, when);
    BatchStays(q, r);
    NewInserts(q, r, timer, when, interval, inFront);
    NewLosesNone(q, r, timer, when, inFront);
    assert forall e :: e in q.timers ==> Queued(q, e) || Gone(q, e);
  }

  lemma NewRuns(when: int, interval: int, now: int)
    ensures Waits(NewTimer(when, interval), 0) && RunsInTime(NewTimer(when, interval), now)
  {
  }

  lemma NewIsNowhere(q: Queue, timer: nat, when: int)
    requires BatchInv(q) && timer !in q.known
    ensures !InRest(q, timer)
    ensures q.place.Batch? ==> forall k :: 0 <= k < |q.place.rest| ==> q.place.rest[k].timer in q.known
  {
    if q.place.Batch? {
      forall k | 0 <= k < |q.place.rest| ensures q.place.rest[k].timer in q.known {
        assert InBatch(q, k) || Dangling(q, k);
      }
    }
  }

  lemma NewInserts(q: Queue, r: Queue, timer: nat, when: int, interval: int, inFront: bool)
    requires InsertsInv(q) && timer !in q.known && Entry(when, timer) !in q.timers && !InRest(q, timer)
    requires r == q.(known := q.known[timer := NewTimer(when, interval)], tasks := r.tasks)
    requires var task := InsertLater(timer, when); r.tasks == if inFront then [task] + q.tasks else q.tasks + [task]
    ensures InsertsInv(r)
  {
    hide InRest;
    NewRuns(when, interval, q.now);
    forall i | 0 <= i < |r.tasks| && r.tasks[i].InsertLater?
      ensures Inserting(r, Entry(r.tasks[i].when, r.tasks[i].timer))
    {
      SameRest(q, r, r.tasks[i].timer);
      var j := if inFront then i - 1 else i;
      if 0 <= j < |q.tasks| {
        assert q.tasks[j] == r.tasks[i];
        assert Inserting(q, Entry(q.tasks[j].when, q.tasks[j].timer));
      }
    }
    forall i, j | 0 <= i < j < |r.tasks| && r.tasks[i].InsertLater? && r.tasks[j].InsertLater?
      ensures r.tasks[i].timer != r.tasks[j].timer
    {
      var d := if inFront then 1 else 0;
      if 0 <= i - d && j - d < |q.tasks| {
        assert q.tasks[i - d] == r.tasks[i] && q.tasks[j - d] == r.tasks[j];
      } else {
        var other := if inFront then j - 1 else i;
        assert Inserting(q, Entry(q.tasks[other].when, q.tasks[other].timer));
      }
    }
  }

  lemma NewLosesNone(q: Queue, r: Queue, timer: nat, when: int, inFront: bool)
    requires NoneLost(q) && timer !in q.known && r.timers == q.timers && r.place == q.place
    requires r.known.Keys == q.known.Keys + {timer} && forall id :: id in q.known ==> r.known[id] == q.known[id]
    requires var task := InsertLater(timer, when); r.tasks == if inFront then [task] + q.tasks else q.tasks + [task]
    ensures NoneLost(r)
  {
    forall id | id in r.known && !r.known[id].deleted ensures Placed(r, id) {
      if id == timer {
        assert r.tasks[if inFront then 0 else |q.tasks|] == InsertLater(timer, when);
      } else {
        assert Placed(q, id);
        if InsertQueued(q, id) {
          var i :| 0 <= i < |q.tasks| && q.tasks[i].InsertLater? && q.tasks[i].timer == id;
          assert r.tasks[if inFront then i + 1 else i] == q.tasks[i];
        }
      }
    }
  }

  /** The first queued insertion is done. */
  lemma InsertKeeps(q: Queue)
    requires Inv(q) && q.tasks != [] && q.tasks[0].InsertLater?
    ensures var e := Entry(q.tasks[0].when, q.tasks[0].timer);
      e !in q.timers && Inv(Inserted(q.(tasks := q.tasks[1..]), e))
  {
    hide Waits, RunsInTime, ArmedInTime, InRest, Arm;
    var e := Entry(q.tasks[0].when, q.tasks[0].timer);
    var r := Inserted(q.(tasks := q.tasks[1..]), e);
    assert Inserting(q, e);
    InsertKeepsBatch(q, r, e);
    InsertKeepsInserts(q, r, e);
    InsertLosesNone(q, r, e);
    InsertArms(q, r, e);
    assert forall x :: x in q.timers ==> Queued(q, x) || Gone(q, x);
  }

  lemma InsertKeepsBatch(q: Queue, r: Queue, e: Entry)
    requires BatchInv(q) && !InRest(q, e.timer) && r.timers == q.timers + {e} && r.known == q.known
    requires r.place == q.place && r.now == q.now
    ensures BatchInv(r)
  {
    if q.place.Batch? {
      assert forall k :: 0 <= k < |q.place.rest| ==> q.place.rest[k].timer != e.timer;
      BatchStays(q, r);
    }
  }

  lemma InsertKeepsInserts(q: Queue, r: Queue, e: Entry)
    requires InsertsInv(q) && q.tasks != [] && q.tasks[0] == InsertLater(e.timer, e.when)
    requires r == q.(timers := q.timers + {e}, fd := r.fd, tasks := q.tasks[1..])
    ensures InsertsInv(r)
  {
    hide Waits, InRest;
    forall i | 0 <= i < |r.tasks| && r.tasks[i].InsertLater?
      ensures Inserting(r, Entry(r.tasks[i].when, r.tasks[i].timer))
    {
      assert r.tasks[i] == q.tasks[i + 1];
      assert Inserting(q, Entry(q.tasks[i + 1].when, q.tasks[i + 1].timer));
      assert InRest(r, r.tasks[i].timer) <==> InRest(q, r.tasks[i].timer) by {
        SameRest(q, r, r.tasks[i].timer);
      }
    }
    forall i, j | 0 <= i < j < |r.tasks| && r.tasks[i].InsertLater? && r.tasks[j].InsertLater?
      ensures r.tasks[i].timer != r.tasks[j].timer
    {
      assert r.tasks[i] == q.tasks[i + 1] && r.tasks[j] == q.tasks[j + 1];
    }
  }

  lemma SameRest(q: Queue, r: Queue, timer: nat)
    requires r.place == q.place
    ensures InRest(r, timer) <==> InRest(q, timer)
  {
  }

  lemma InsertLosesNone(q: Queue, r: Queue, e: Entry)
    requires NoneLost(q) && q.tasks != [] && q.tasks[0] == InsertLater(e.timer, e.when)
    requires e.timer in q.known && q.known[e.timer].when == e.when
    requires r == q.(timers := q.timers + {e}, fd := r.fd, tasks := q.tasks[1..])
    ensures NoneLost(r)
  {
    forall id | id in r.known && !r.known[id].deleted ensures Placed(r, id) {
      assert Placed(q, id);
      if id != e.timer && InsertQueued(q, id) {
        var i :| 0 <= i < |q.tasks| && q.tasks[i].InsertLater? && q.tasks[i].timer == id;
        assert r.tasks[i - 1] == q.tasks[i];
      }
    }
  }

  lemma InsertArms(q: Queue, r: Queue, e: Entry)
    requires r == Inserted(q.(tasks := r.tasks), e)
    requires (q.fd.Armed? ==> q.fd.setAt <= q.now < q.fd.deadline) && (q.place.Idle? ==> ArmedInTime(q))
    ensures (r.fd.Armed? ==> r.fd.setAt <= r.now < r.fd.deadline) && (r.place.Idle? ==> ArmedInTime(r))
  {
    if !IsLeast(r.timers, e) {
      var x :| x in r.timers && x != e && !Before(e, x);
      assert x in q.timers && x.when <= e.when;
    }
  }

  lemma AddKeeps(q: Queue, timer: nat, when: int, interval: int)
    requires Inv(q) && Enabled(q, Add(timer, when, interval))
    ensures Inv(Next(q, Add(timer, when, interval)))
    ensures Entry(when, timer) !in q.timers
  {
    hide Inv;
    NewKeeps(q, timer, when, interval, true);
    var made := q.(known := q.known[timer := NewTimer(when, interval)], tasks := [InsertLater(timer, when)] + q.tasks);
    InsertKeeps(made);
    assert made.tasks[1..] == q.tasks;
  }

  lemma ForeignAddKeeps(q: Queue, timer: nat, when: int, interval: int)
    requires Inv(q) && Enabled(q, ForeignAdd(timer, when, interval))
    ensures Inv(Next(q, ForeignAdd(timer, when, interval)))
  {
    hide Inv;
    NewKeeps(q, timer, when, interval, false);
  }

  /** A live timer has not been cancelled: it waits in the queue, in the batch, or for its insertion. */
  lemma AliveIsNotCancelled(q: Queue, timer: nat)
    requires Inv(q) && Alive(q, timer)
    ensures !q.known[timer].canceled
  {
    hide RunsInTime, ArmedInTime;
    var e := Entry(q.known[timer].when, timer);
    assert Placed(q, timer);
    if e in q.timers {
      assert Queued(q, e) || Gone(q, e);
    } else if InsertQueued(q, timer) {
      var i :| 0 <= i < |q.tasks| && q.tasks[i].InsertLater? && q.tasks[i].timer == timer;
      assert Inserting(q, Entry(q.tasks[i].when, q.tasks[i].timer));
    } else {
      var k :| 0 <= k < |q.place.rest| && q.place.rest[k] == e;
      assert InBatch(q, k) || Dangling(q, k);
    }
  }

  lemma CancelKeeps(q: Queue, timer: nat)
    requires Inv(q) && Alive(q, timer)
    ensures Inv(Cancelled(q, timer))
    ensures !q.known[timer].canceled
  {
    hide Waits, RunsInTime, ArmedInTime, InRest;
    AliveIsNotCancelled(q, timer);
    CancelLeavesOthers(q, timer);
    CancelKeepsBatch(q, timer);
    CancelKeepsInserts(q, timer);
    CancelKeepsClock(q, timer);
  }

  lemma CancelLeavesOthers(q: Queue, timer: nat)
    requires Inv(q) && Alive(q, timer)
    ensures var r := Cancelled(q, timer); NoneLost(r) && forall e :: e in r.timers ==> Queued(r, e) || Gone(r, e)
  {
    hide Waits, RunsInTime, ArmedInTime, BatchInv, InsertsInv;
    var r := Cancelled(q, timer);
    assert forall e :: e in r.timers ==> (Queued(q, e) || Gone(q, e)) && e.timer != timer;
    forall id | id in r.known && !r.known[id].deleted ensures Placed(r, id) {
      assert Placed(q, id);
      if InsertQueued(q, id) {
        assert InsertQueued(r, id);
      }
    }
  }

  lemma CancelKeepsInserts(q: Queue, timer: nat)
    requires InsertsInv(q) && Alive(q, timer)
    ensures InsertsInv(Cancelled(q, timer))
  {
    hide Waits, InRest;
    var r := Cancelled(q, timer);
    forall i | 0 <= i < |r.tasks| && r.tasks[i].InsertLater?
      ensures Inserting(r, Entry(r.tasks[i].when, r.tasks[i].timer))
    {
      assert Inserting(q, Entry(q.tasks[i].when, q.tasks[i].timer));
      SameRest(q, r, r.tasks[i].timer);
    }
  }

  lemma CancelKeepsClock(q: Queue, timer: nat)
    requires Inv(q) && Alive(q, timer)
    ensures var r := Cancelled(q, timer);
      (forall id :: id in r.known ==> RunsInTime(r.known[id], r.now)) && (r.place.Idle? ==> ArmedInTime(r))
  {
    hide BatchInv, InsertsInv, NoneLost;
  }

  lemma CancelKeepsBatch(q: Queue, timer: nat)
    requires BatchInv(q) && Alive(q, timer)
    ensures BatchInv(Cancelled(q, timer))
  {
    var r := Cancelled(q, timer);
    if q.place.Batch? {
      forall k | 0 <= k < |r.place.rest| ensures InBatch(r, k) || Dangling(r, k) {
        assert InBatch(q, k) || Dangling(q, k);
        assert r.place.rest[k].timer == timer ==> Dangling(r, k);
      }
    }
  }

  /** Queued cancellations hold nothing in place. */
  lemma TasksKeep(q: Queue, r: Queue)
    requires Inv(q) && r == q.(tasks := r.tasks)
    requires (q.tasks != [] && q.tasks[0].CancelLater? && r.tasks == q.tasks[1..])
      || (r.tasks != [] && r.tasks[|r.tasks| - 1].CancelLater? && r.tasks[..|r.tasks| - 1] == q.tasks)
    ensures Inv(r)
  {
    hide Waits, RunsInTime, InRest;
    var d := if |r.tasks| < |q.tasks| then 1 else 0;
    assert forall i :: 0 <= i < |r.tasks| && i + d < |q.tasks| ==> r.tasks[i] == q.tasks[i + d];
    BatchStays(q, r);
    forall i | 0 <= i < |r.tasks| && r.tasks[i].InsertLater?
      ensures Inserting(r, Entry(r.tasks[i].when, r.tasks[i].timer))
    {
      assert r.tasks[i] == q.tasks[i + d];
      assert Inserting(q, Entry(q.tasks[i + d].when, q.tasks[i + d].timer));
      SameRest(q, r, r.tasks[i].timer);
    }
    forall id | id in r.known && !r.known[id].deleted ensures Placed(r, id) {
      assert Placed(q, id);
      if InsertQueued(q, id) {
        var i :| 0 <= i < |q.tasks| && q.tasks[i].InsertLater? && q.tasks[i].timer == id;
        assert r.tasks[i - d] == q.tasks[i];
      }
    }
    assert forall e :: e in q.timers ==> Queued(q, e) || Gone(q, e);
  }

  lemma RunQueuedKeeps(q: Queue)
    requires Inv(q) && Enabled(q, RunQueued)
    ensures Inv(Next(q, RunQueued))
  {
    hide Inv;
    if q.tasks[0].InsertLater? {
      InsertKeeps(q);
    } else {
      TasksKeep(q, q.(tasks := q.tasks[1..]));
      CancelKeeps(q.(tasks := q.tasks[1..]), q.tasks[0].timer);
    }
  }

  lemma BeginKeeps(q: Queue)
    requires Inv(q) && Enabled(q, BeginRead)
    ensures Inv(Next(q, BeginRead))
  {
    hide RunsInTime, Waits;
    var r := Next(q, BeginRead);
    BeginKeepsBatch(q);
    BeginKeepsInserts(q);
    BeginLosesNone(q);
    assert forall e :: e in r.timers ==> Queued(q, e) || Gone(q, e);
  }

  lemma BeginKeepsBatch(q: Queue)
    requires Inv(q) && Enabled(q, BeginRead)
    ensures BatchInv(Next(q, BeginRead))
  {
    hide InsertsInv, NoneLost, ArmedInTime, RunsInTime;
    var r := Next(q, BeginRead);
    var rest := r.place.rest;
    forall k | 0 <= k < |rest| ensures InBatch(r, k) || Dangling(r, k) {
      assert rest[k] in Elems(rest);
      assert Queued(q, rest[k]) || Gone(q, rest[k]);
    }
    forall i, j | 0 <= i < j < |rest| ensures rest[i].timer != rest[j].timer {
      assert rest[i] in Elems(rest) && rest[j] in Elems(rest) && Before(rest[i], rest[j]);
      assert (Queued(q, rest[i]) || Gone(q, rest[i])) && (Queued(q, rest[j]) || Gone(q, rest[j]));
    }
  }

  lemma BeginKeepsInserts(q: Queue)
    requires Inv(q) && Enabled(q, BeginRead)
    ensures InsertsInv(Next(q, BeginRead))
  {
    hide NoneLost, ArmedInTime, RunsInTime, BatchInv, Waits;
    var r := Next(q, BeginRead);
    var rest := r.place.rest;
    forall i | 0 <= i < |q.tasks| && q.tasks[i].InsertLater? ensures !InRest(r, q.tasks[i].timer) {
      assert Inserting(q, Entry(q.tasks[i].when, q.tasks[i].timer));
      forall k | 0 <= k < |rest| ensures rest[k].timer != q.tasks[i].timer {
        assert rest[k] in Elems(rest);
        assert Queued(q, rest[k]) || Gone(q, rest[k]);
      }
    }
    InsertsStay(q, r);
  }

  lemma BeginLosesNone(q: Queue)
    requires NoneLost(q) && Enabled(q, BeginRead)
    ensures NoneLost(Next(q, BeginRead))
  {
    var r := Next(q, BeginRead);
    forall timer | timer in r.known && !r.known[timer].deleted ensures Placed(r, timer) {
      assert Placed(q, timer);
      var e := Entry(r.known[timer].when, timer);
      assert e in Due(q.timers, q.now) ==> e in Elems(r.place.rest);
      if InsertQueued(q, timer) {
        assert InsertQueued(r, timer);
      }
    }
  }

  lemma RunTimerKeeps(q: Queue)
    requires Inv(q) && Enabled(q, RunTimer)
    ensures Inv(Next(q, RunTimer))
  {
    hide RunsInTime, Waits, ArmedInTime;
    var r := Next(q, RunTimer);
    var id := q.place.rest[0].timer;
    RanTimer(q);
    assert forall e :: e in q.timers ==> (Queued(q, e) || Gone(q, e)) && e.timer != id;
    forall k | 0 <= k < |r.place.rest| ensures InBatch(r, k) || Dangling(r, k) {
      if k > 0 {
        OthersStay(q, r, k, k);
      }
    }
    BatchKeepsInserts(q, r);
    RunLosesNone(q, r);
  }

  lemma RunLosesNone(q: Queue, r: Queue)
    requires NoneLost(q) && q.place.Batch? && r.timers == q.timers && r.tasks == q.tasks
    requires r.place.Batch? && r.place == q.place.(ran := r.place.ran)
    requires r.known.Keys == q.known.Keys
    requires forall id :: id in q.known ==>
      r.known[id].when == q.known[id].when && r.known[id].deleted == q.known[id].deleted
    ensures NoneLost(r)
  {
    forall id | id in r.known && !r.known[id].deleted ensures Placed(r, id) {
      assert Placed(q, id);
      if InsertQueued(q, id) {
        assert InsertQueued(r, id);
      }
    }
  }

  /** A queued insertion is not for a timer of the batch, so treating the first of the batch leaves it alone. */
  lemma BatchKeepsInserts(q: Queue, r: Queue)
    requires InsertsInv(q) && q.place.Batch? && q.place.rest != [] && r.place.Batch? && r.tasks == q.tasks
    requires r.place.rest == q.place.rest || r.place.rest == q.place.rest[1..]
    requires r.known.Keys == q.known.Keys
    requires forall id :: id in q.known && id != q.place.rest[0].timer ==> r.known[id] == q.known[id]
    requires forall e :: e in r.timers && e.timer != q.place.rest[0].timer ==> e in q.timers
    ensures InsertsInv(r)
  {
    hide Waits;
    forall i | 0 <= i < |q.tasks| && q.tasks[i].InsertLater?
      ensures q.tasks[i].timer != q.place.rest[0].timer && !InRest(r, q.tasks[i].timer)
    {
      assert Inserting(q, Entry(q.tasks[i].when, q.tasks[i].timer));
      assert !InRest(q, q.tasks[i].timer);
      assert q.place.rest[0].timer != q.tasks[i].timer;
      forall k | 0 <= k < |r.place.rest| ensures r.place.rest[k].timer != q.tasks[i].timer {
        assert r.place.rest[k] == q.place.rest[if r.place.rest == q.place.rest then k else k + 1];
      }
    }
    InsertsStay(q, r);
  }

  lemma RanTimer(q: Queue)
    requires Inv(q) && Enabled(q, RunTimer)
    ensures var r := Next(q, RunTimer); var id := q.place.rest[0].timer;
      RunsInTime(r.known[id], q.now) && InBatch(r, 0) && (forall e :: e in q.timers ==> e.timer != id)
  {
    assert InBatch(q, 0);
    var id := q.place.rest[0].timer;
    assert RunsInTime(q.known[id], q.now);
    forall e | e in q.timers ensures e.timer != id {
      assert Queued(q, e) || Gone(q, e);
    }
  }

  /** The timers of a batch are different, so treating the first leaves the others as they were. */
  lemma OthersStay(q: Queue, r: Queue, k: nat, m: nat)
    requires BatchInv(q) && q.place.Batch? && r.place.Batch? && r.place.start == q.place.start
    requires 0 < k < |q.place.rest| && m < |r.place.rest| && r.place.rest[m] == q.place.rest[k]
    requires m == 0 ==> !r.place.ran
    requires var e := q.place.rest[k];
      (e.timer in q.known ==> e.timer in r.known && r.known[e.timer] == q.known[e.timer])
      && (e in r.timers ==> e in q.timers)
    ensures InBatch(r, m) || Dangling(r, m)
  {
    assert InBatch(q, k) || Dangling(q, k);
  }

  lemma NextDue(t: TimerState, j: nat)
    ensures DueAt(t, j) + t.interval == DueAt(t, j + 1)
  {
  }

  lemma FinishKeeps(q: Queue)
    requires Inv(q) && Enabled(q, FinishTimer)
    ensures Inv(Next(q, FinishTimer))
  {
    hide RunsInTime, Waits;
    assert InBatch(q, 0);
    var r := Next(q, FinishTimer);
    forall m | 0 <= m < |r.place.rest| ensures InBatch(r, m) || Dangling(r, m) {
      assert r.place.rest[m] == q.place.rest[m + 1];
      OthersStay(q, r, m + 1, m);
    }
    FinishedTimer(q);
    FinishLosesNone(q);
    BatchKeepsInserts(q, r);
    FinishedEntries(q);
  }

  lemma FinishedEntries(q: Queue)
    requires Inv(q) && Enabled(q, FinishTimer)
    ensures var r := Next(q, FinishTimer); forall e :: e in r.timers ==> Queued(r, e) || Gone(r, e)
  {
    hide InsertsInv, NoneLost, ArmedInTime;
    FinishedTimer(q);
    assert InBatch(q, 0);
    assert forall e :: e in q.timers ==> Queued(q, e) || Gone(q, e);
  }

  lemma FinishedTimer(q: Queue)
    requires BatchInv(q) && Enabled(q, FinishTimer)
    requires forall timer :: timer in q.known ==> RunsInTime(q.known[timer], q.now)
    ensures var id := q.place.rest[0].timer; var t := Next(q, FinishTimer).known[id];
      RunsInTime(t, q.now) && (!t.deleted ==> Waits(t, |t.runs|))
  {
    assert InBatch(q, 0);
    var id := q.place.rest[0].timer;
    NextDue(q.known[id], |q.known[id].runs| - 1);
    assert RunsInTime(q.known[id], q.now);
  }

  lemma FinishLosesNone(q: Queue)
    requires BatchInv(q) && NoneLost(q) && Enabled(q, FinishTimer)
    ensures NoneLost(Next(q, FinishTimer))
  {
    var r := Next(q, FinishTimer);
    var rest := q.place.rest;
    assert InBatch(q, 0);
    forall timer | timer in r.known && !r.known[timer].deleted ensures Placed(r, timer) {
      assert Placed(q, timer);
      var e := Entry(r.known[timer].when, timer);
      if InsertQueued(q, timer) {
        assert InsertQueued(r, timer);
      } else if timer != rest[0].timer && e !in q.timers {
        assert e in rest && e != rest[0];
        var i :| 0 <= i < |rest| && rest[i] == e;
        assert rest[1..][i - 1] == e;
      }
    }
  }

  lemma EndKeeps(q: Queue)
    requires Inv(q) && Enabled(q, EndRead)
    ensures Inv(Next(q, EndRead))
  {
    hide RunsInTime, Waits;
    var r := Next(q, EndRead);
    InsertsStay(q, r);
    forall timer | timer in r.known && !r.known[timer].deleted ensures Placed(r, timer) {
      assert Placed(q, timer);
      if InsertQueued(q, timer) {
        assert InsertQueued(r, timer);
      }
    }
    assert forall e :: e in q.timers ==> Queued(q, e) || Gone(q, e);
  }

  lemma StepKeeps(q: Queue, step: Step)
    requires Inv(q) && Enabled(q, step)
    ensures Inv(Next(q, step))
  {
    match step
    case Tick(to) => TickKeeps(q, to);
    case Add(timer, when, interval) => AddKeeps(q, timer, when, interval);
    case Cancel(timer) => CancelKeeps(q, timer);
    case ForeignAdd(timer, when, interval) => ForeignAddKeeps(q, timer, when, interval);
    case ForeignCancel(timer) => TasksKeep(q, Next(q, step));
    case RunQueued => RunQueuedKeeps(q);
    case BeginRead => BeginKeeps(q);
    case RunTimer => RunTimerKeeps(q);
    case FinishTimer => FinishKeeps(q);
    case EndRead => EndKeeps(q);
  }

  lemma {:induction false} RunKeeps(q: Queue, steps: seq<Step>)
    requires Inv(q) && CanRun(q, steps)
    ensures Inv(After(q, steps))
    decreases |steps|
  {
    if steps != [] {
      StepKeeps(q, steps[0]);
      RunKeeps(Next(q, steps[0]), steps[1..]);
    }
  }

  // ----- the promises, over every run -----

  /** Between batches the live entries are exactly the live timers that have been inserted, each under its due time. */
  lemma EntriesAreLiveTimers(now: int, steps: seq<Step>, e: Entry)
    requires CanRun(Init(now), steps) && After(Init(now), steps).place.Idle?
    ensures var q := After(Init(now), steps);
      e in q.timers && Alive(q, e.timer) <==>
      Alive(q, e.timer) && q.known[e.timer].when == e.when && !InsertQueued(q, e.timer)
  {
    RunKeeps(Init(now), steps);
    var q := After(Init(now), steps);
    assert e in q.timers ==> Queued(q, e) || Gone(q, e);
    if Alive(q, e.timer) {
      assert Placed(q, e.timer);
      if InsertQueued(q, e.timer) {
        var i :| 0 <= i < |q.tasks| && q.tasks[i].InsertLater? && q.tasks[i].timer == e.timer;
        assert Inserting(q, Entry(q.tasks[i].when, q.tasks[i].timer));
      }
    }
  }

  /** The hardware timer is never late: it has fired, or will fire by the earliest due time, up to the 1 ms clamp. */
  lemma NeverArmedTooLate(now: int, steps: seq<Step>)
    requires CanRun(Init(now), steps)
    ensures var q := After(Init(now), steps);
      q.place.Idle? && q.timers != {} ==>
        || q.fd.Pending?
        || (q.fd.Armed? && q.fd.setAt <= q.now < q.fd.deadline
            && (q.fd.deadline <= Least(q.timers).when || q.fd.deadline <= q.fd.setAt + MILLISECOND))
  {
    RunKeeps(Init(now), steps);
  }

  lemma LeastIs(timers: set<Entry>, e: Entry)
    requires IsLeast(timers, e)
    ensures timers != {} && Least(timers) == e
  {
    var least := Least(timers);
    assert least != e ==> Before(least, e) && Before(e, least);
  }

  /**
   What each step makes of the descriptor: a new first entry and the end of a batch arm it, exactly for the earliest
   timer but at least a millisecond ahead; time lets it fire and the read empties it; nothing else touches it.
   */
  lemma StepArms(q: Queue, step: Step)
    requires Enabled(q, step)
    ensures var r := Next(q, step);
      var armed := r.timers != {} && r.fd == Armed(
        if Least(r.timers).when < q.now + 1_000_000 then q.now + 1_000_000 else Least(r.timers).when, q.now);
      match step
      case Add(timer, when, _) => if IsLeast(r.timers, Entry(when, timer)) then armed else r.fd == q.fd
      case RunQueued =>
        if q.tasks[0].InsertLater? && IsLeast(r.timers, Entry(q.tasks[0].when, q.tasks[0].timer)) then armed
        else r.fd == q.fd
      case EndRead => if q.timers != {} then armed else r.fd == q.fd
      case Tick(to) => r.fd == if q.fd.Armed? && q.fd.deadline <= to then Pending else q.fd
      case BeginRead => r.fd == if q.fd.Pending? then Disarmed else q.fd
      case _ => r.fd == q.fd
  {
    var r := Next(q, step);
    match step {
      case Add(timer, when, _) =>
        if IsLeast(r.timers, Entry(when, timer)) {
          LeastIs(r.timers, Entry(when, timer));
        }
      case RunQueued =>
        if q.tasks[0].InsertLater? && IsLeast(r.timers, Entry(q.tasks[0].when, q.tasks[0].timer)) {
          LeastIs(r.timers, Entry(q.tasks[0].when, q.tasks[0].timer));
        }
      case _ =>
    }
  }

  /** The descriptor is as it was set in this state, for its earliest timer. */
  ghost predicate SetHere(q: Queue, fd: Timerfd) {
    q.timers != {} && fd == Armed(
      if Least(q.timers).when < q.now + 1_000_000 then q.now + 1_000_000 else Least(q.timers).when, q.now)
  }

  ghost predicate SetWithin(q: Queue, steps: seq<Step>, fd: Timerfd)
    requires CanRun(q, steps)
    decreases |steps|
  {
    steps != [] && (SetHere(Next(q, steps[0]), fd) || SetWithin(Next(q, steps[0]), steps[1..], fd))
  }

  lemma SetByStep(q: Queue, step: Step)
    requires Enabled(q, step)
    ensures var r := Next(q, step); r.fd.Armed? ==> r.fd == q.fd || SetHere(r, r.fd)
  {
    StepArms(q, step);
  }

  lemma {:induction false} SetByRun(q: Queue, steps: seq<Step>)
    requires CanRun(q, steps)
    ensures var r := After(q, steps); r.fd.Armed? ==> r.fd == q.fd || SetWithin(q, steps, r.fd)
    decreases |steps|
  {
    if steps != [] {
      hide Next, Enabled, SetHere;
      SetByStep(q, steps[0]);
      SetByRun(Next(q, steps[0]), steps[1..]);
    }
  }

  lemma {:induction false} SetAfterPrefix(q: Queue, steps: seq<Step>, fd: Timerfd) returns (k: nat)
    requires CanRun(q, steps) && SetWithin(q, steps, fd)
    ensures k <= |steps| && CanRun(q, steps[..k]) && SetHere(After(q, steps[..k]), fd)
    decreases |steps|
  {
    hide Next, Enabled, SetHere;
    if SetHere(Next(q, steps[0]), fd) {
      k := 1;
      assert steps[..1] == [steps[0]] && steps[..1][1..] == [];
    } else {
      var j := SetAfterPrefix(Next(q, steps[0]), steps[1..], fd);
      k := j + 1;
      assert steps[..k][1..] == steps[1..][..j];
    }
  }

  /**
   The hardware timer is never early: whenever it is armed, it was set at some point of the run, at that point's time
   and for the earliest timer there was then, or for a millisecond later if that timer was due by then.
   */
  lemma NeverArmedTooEarly(now: int, steps: seq<Step>)
    requires CanRun(Init(now), steps) && After(Init(now), steps).fd.Armed?
    ensures var fd := After(Init(now), steps).fd;
      exists k :: 0 <= k <= |steps| && CanRun(Init(now), steps[..k])
        && var p := After(Init(now), steps[..k]);
           && p.timers != {} && fd.setAt == p.now
           && fd.deadline == if Least(p.timers).when < p.now + 1_000_000 then p.now + 1_000_000
                             else Least(p.timers).when
  {
    SetByRun(Init(now), steps);
    var k := SetAfterPrefix(Init(now), steps, After(Init(now), steps).fd);
  }

  /** Between batches a live timer that has been inserted is due exactly one interval after another from the first. */
  lemma DueTimesAreRegular(now: int, steps: seq<Step>, timer: nat)
    requires CanRun(Init(now), steps) && After(Init(now), steps).place.Idle? && Alive(After(Init(now), steps), timer)
    ensures var t := After(Init(now), steps).known[timer];
      t.when == t.first + |t.runs| * (if t.interval > 0 then t.interval else 0)
  {
    var q := After(Init(now), steps);
    RunKeeps(Init(now), steps);
    var e := Entry(q.known[timer].when, timer);
    assert Placed(q, timer);
    if e in q.timers {
      assert Queued(q, e) || Gone(q, e);
    } else {
      var i :| 0 <= i < |q.tasks| && q.tasks[i].InsertLater? && q.tasks[i].timer == timer;
      assert Inserting(q, Entry(q.tasks[i].when, q.tasks[i].timer));
    }
  }

  /** No callback runs early, repeating ones keep their distance from the first, and one-shots run at most once. */
  lemma RunsAreOnTime(now: int, steps: seq<Step>, timer: nat)
    requires CanRun(Init(now), steps) && timer in After(Init(now), steps).known
    ensures var t := After(Init(now), steps).known[timer];
      && (forall j :: 0 <= j < |t.runs| ==> t.runs[j] >= if t.interval > 0 then t.first + j * t.interval else t.first)
      && (t.interval <= 0 ==> |t.runs| <= 1)
  {
    RunKeeps(Init(now), steps);
    var t := After(Init(now), steps).known[timer];
    assert RunsInTime(t, After(Init(now), steps).now);
    forall j | 0 <= j < |t.runs| ensures t.runs[j] >= if t.interval > 0 then t.first + j * t.interval else t.first {
      assert t.interval > 0 ==> DueAt(t, j) <= t.runs[j];
    }
  }

  lemma BatchIsDue(q: Queue, k: nat)
    requires Inv(q) && q.place.Batch? && k < |q.place.rest|
    ensures var e := q.place.rest[k];
      && e.timer in q.known && q.known[e.timer].when == e.when <= q.place.start <= q.now
      && (Alive(q, e.timer) <==> !q.known[e.timer].canceled)
  {
    assert InBatch(q, k) || Dangling(q, k);
  }

  /** The timers of the running batch have all expired, and those alive are the ones not cancelled. */
  lemma BatchTimersAreDue(now: int, steps: seq<Step>, k: nat)
    requires CanRun(Init(now), steps)
    requires var q := After(Init(now), steps); q.place.Batch? && k < |q.place.rest|
    ensures var q := After(Init(now), steps); var e := q.place.rest[k];
      && e.timer in q.known && q.known[e.timer].when == e.when <= q.place.start <= q.now
      && (Alive(q, e.timer) <==> !q.known[e.timer].canceled)
  {
    RunKeeps(Init(now), steps);
    BatchIsDue(After(Init(now), steps), k);
  }

  /** No entry of the batch points to a deleted timer. */
  ghost predicate BatchIsAlive(q: Queue) {
    q.place.Batch? ==> forall k :: 0 <= k < |q.place.rest| ==> Alive(q, q.place.rest[k].timer)
  }

  /** No entry of the set or the batch, or still to be inserted, points to a deleted timer. */
  ghost predicate EntriesAlive(q: Queue) {
    && (forall e :: e in q.timers ==> Alive(q, e.timer))
    && BatchIsAlive(q)
    && forall i :: 0 <= i < |q.tasks| && q.tasks[i].InsertLater? ==> Alive(q, q.tasks[i].timer)
  }

  /** The timer is in the running batch, or its insertion is still queued. */
  ghost predicate OutOfReach(q: Queue, timer: nat) {
    InRest(q, timer) || InsertQueued(q, timer)
  }

  /** The step cancels a timer that the cancellation cannot take out of the queue. */
  ghost predicate CancelsOutOfReach(q: Queue, step: Step)
    requires Enabled(q, step)
  {
    match step
    case Cancel(timer) => OutOfReach(q, timer)
    case RunQueued => q.tasks[0].CancelLater? && OutOfReach(q, q.tasks[0].timer)
    case _ => false
  }

  /** Some step of this run does. */
  ghost predicate CancelsTooEarly(q: Queue, steps: seq<Step>)
    requires CanRun(q, steps)
    decreases |steps|
  {
    steps != [] && (CancelsOutOfReach(q, steps[0]) || CancelsTooEarly(Next(q, steps[0]), steps[1..]))
  }

  lemma CancelledEntries(q: Queue, timer: nat)
    requires Inv(q) && EntriesAlive(q) && Alive(q, timer)
    ensures EntriesAlive(Cancelled(q, timer)) <==> !OutOfReach(q, timer)
  {
    hide Waits, RunsInTime, ArmedInTime;
    var r := Cancelled(q, timer);
    assert forall e :: e in r.timers ==> (Queued(q, e) || Gone(q, e)) && e.timer != timer;
    if InRest(q, timer) {
      var k :| 0 <= k < |q.place.rest| && q.place.rest[k].timer == timer;
      assert !Alive(r, r.place.rest[k].timer);
    } else if InsertQueued(q, timer) {
      var i :| 0 <= i < |q.tasks| && q.tasks[i].InsertLater? && q.tasks[i].timer == timer;
      assert !Alive(r, r.tasks[i].timer);
    }
  }

  lemma StepKeepsEntries(q: Queue, step: Step)
    requires Inv(q) && EntriesAlive(q) && Enabled(q, step)
    ensures EntriesAlive(Next(q, step)) <==> !CancelsOutOfReach(q, step)
  {
    var r := Next(q, step);
    match step {
      case Cancel(timer) => CancelledEntries(q, timer);
      case RunQueued => QueuedKeepsEntries(q);
      case BeginRead =>
        forall k | 0 <= k < |r.place.rest| ensures Alive(r, r.place.rest[k].timer) {
          assert r.place.rest[k] in Elems(r.place.rest);
        }
      case RunTimer => BatchKeepsEntries(q, step);
      case FinishTimer => BatchKeepsEntries(q, step);
      case Add(_, _, _) =>
        assert forall id :: Alive(q, id) ==> Alive(r, id);
      case ForeignAdd(timer, _, _) =>
        assert forall id :: Alive(q, id) ==> Alive(r, id);
        assert Alive(r, timer);
      case ForeignCancel(_) =>
        assert forall id :: Alive(q, id) ==> Alive(r, id);
      case _ =>
    }
  }

  lemma QueuedKeepsEntries(q: Queue)
    requires Inv(q) && EntriesAlive(q) && Enabled(q, RunQueued)
    ensures EntriesAlive(Next(q, RunQueued)) <==> !CancelsOutOfReach(q, RunQueued)
  {
    hide Waits, RunsInTime, ArmedInTime;
    var later := q.(tasks := q.tasks[1..]);
    assert EntriesAlive(later);
    if q.tasks[0].CancelLater? {
      TasksKeep(q, later);
      CancelledEntries(later, q.tasks[0].timer);
      SameReach(q, later, q.tasks[0].timer);
    } else {
      assert Alive(q, q.tasks[0].timer);
    }
  }

  lemma SameReach(q: Queue, r: Queue, timer: nat)
    requires q.tasks != [] && q.tasks[0].CancelLater? && r == q.(tasks := q.tasks[1..])
    ensures OutOfReach(r, timer) <==> OutOfReach(q, timer)
  {
    if InsertQueued(q, timer) {
      var i :| 0 <= i < |q.tasks| && q.tasks[i].InsertLater? && q.tasks[i].timer == timer;
      assert r.tasks[i - 1] == q.tasks[i];
    }
  }

  lemma BatchKeepsEntries(q: Queue, step: Step)
    requires Inv(q) && EntriesAlive(q) && Enabled(q, step) && (step.RunTimer? || step.FinishTimer?)
    ensures EntriesAlive(Next(q, step))
  {
    hide RunsInTime, ArmedInTime;
    var r := Next(q, step);
    var id := q.place.rest[0].timer;
    assert InBatch(q, 0);
    assert forall x :: Alive(q, x) && x != id ==> Alive(r, x);
    forall e | e in r.timers ensures Alive(r, e.timer) {
      if e in q.timers {
        assert Queued(q, e) || Gone(q, e);
      }
    }
    forall i | 0 <= i < |r.tasks| && r.tasks[i].InsertLater? ensures r.tasks[i].timer != id {
      assert Inserting(q, Entry(q.tasks[i].when, q.tasks[i].timer));
      assert !InRest(q, q.tasks[i].timer);
      assert q.place.rest[0].timer == id;
    }
    if step.FinishTimer? {
      forall m | 0 <= m < |r.place.rest| ensures Alive(r, r.place.rest[m].timer) {
        assert r.place.rest[m] == q.place.rest[m + 1];
      }
    }
  }

  /** A pointer to a deleted timer stays: nothing takes it out, and nothing behind it in a batch is reached any more. */
  lemma DeadStays(q: Queue, step: Step)
    requires Inv(q) && !EntriesAlive(q) && Enabled(q, step)
    ensures !EntriesAlive(Next(q, step))
  {
    hide RunsInTime, ArmedInTime;
    if e :| e in q.timers && !Alive(q, e.timer) {
      assert Queued(q, e) || Gone(q, e);
      DeadEntryStays(q, step, e);
    } else if !BatchIsAlive(q) {
      var k :| 0 <= k < |q.place.rest| && !Alive(q, q.place.rest[k].timer);
      DeadInBatchStays(q, step, k);
    } else {
      var i :| 0 <= i < |q.tasks| && q.tasks[i].InsertLater? && !Alive(q, q.tasks[i].timer);
      assert Inserting(q, Entry(q.tasks[i].when, q.tasks[i].timer));
      DeadInsertStays(q, step, i);
    }
  }

  /** A deleted timer is never made again, and nothing it is known by changes. */
  lemma DeadIsFrozen(q: Queue, step: Step, id: nat)
    requires Enabled(q, step) && id in q.known && q.known[id].deleted
    ensures var r := Next(q, step); id in r.known && r.known[id] == q.known[id]
  {
  }

  lemma DeadEntryStays(q: Queue, step: Step, e: Entry)
    requires Enabled(q, step) && e in q.timers && Gone(q, e)
    ensures !EntriesAlive(Next(q, step))
  {
    var r := Next(q, step);
    DeadIsFrozen(q, step, e.timer);
    assert !Alive(r, e.timer);
    if step.BeginRead? && e !in r.timers {
      assert e in Elems(r.place.rest);
      var k :| 0 <= k < |r.place.rest| && r.place.rest[k] == e;
      assert !Alive(r, r.place.rest[k].timer);
    } else {
      assert e in r.timers;
    }
  }

  lemma DeadInBatchStays(q: Queue, step: Step, k: nat)
    requires Inv(q) && Enabled(q, step) && q.place.Batch? && k < |q.place.rest| && !Alive(q, q.place.rest[k].timer)
    ensures !EntriesAlive(Next(q, step))
  {
    var r := Next(q, step);
    BatchIsDue(q, k);
    DeadIsFrozen(q, step, q.place.rest[k].timer);
    if step.FinishTimer? {
      assert k > 0 && r.place.rest[k - 1] == q.place.rest[k];
      assert !Alive(r, r.place.rest[k - 1].timer);
    } else {
      assert !Alive(r, r.place.rest[k].timer);
    }
  }

  lemma DeadInsertStays(q: Queue, step: Step, i: nat)
    requires Enabled(q, step) && i < |q.tasks| && q.tasks[i].InsertLater?
    requires Gone(q, Entry(q.tasks[i].when, q.tasks[i].timer))
    ensures !EntriesAlive(Next(q, step))
  {
    var r := Next(q, step);
    var id := q.tasks[i].timer;
    DeadIsFrozen(q, step, id);
    assert !Alive(r, id);
    if step.RunQueued? {
      if i == 0 {
        assert Entry(q.tasks[0].when, id) in r.timers;
      } else {
        assert r.tasks[i - 1] == q.tasks[i];
      }
    } else {
      assert r.tasks[i] == q.tasks[i];
    }
  }

  lemma {:induction false} EntriesRun(q: Queue, steps: seq<Step>)
    requires Inv(q) && CanRun(q, steps)
    ensures EntriesAlive(After(q, steps)) <==> EntriesAlive(q) && !CancelsTooEarly(q, steps)
    decreases |steps|
  {
    if steps != [] {
      hide Inv, EntriesAlive, CancelsOutOfReach;
      StepKeeps(q, steps[0]);
      if EntriesAlive(q) {
        StepKeepsEntries(q, steps[0]);
      } else {
        DeadStays(q, steps[0]);
      }
      EntriesRun(Next(q, steps[0]), steps[1..]);
    }
  }

  /**
   Exactly the runs in which nobody cancels a timer of the running batch, or one whose insertion is still queued,
   leave no entry that points to a deleted timer.
   */
  lemma EntriesAliveIffNoneCancelledEarly(now: int, steps: seq<Step>)
    requires CanRun(Init(now), steps)
    ensures EntriesAlive(After(Init(now), steps)) <==> !CancelsTooEarly(Init(now), steps)
  {
    EntriesRun(Init(now), steps);
  }

  // ----- cancellations that wait -----

  /** The timers whose cancellation is queued are still alive. */
  ghost predicate CancelsAlive(q: Queue) {
    forall timer :: CancelLater(timer) in q.tasks ==> Alive(q, timer)
  }

  /** No pointer in the set, the batch or a queued task is to a deleted timer. */
  ghost predicate PointersAlive(q: Queue) {
    EntriesAlive(q) && CancelsAlive(q)
  }

  ghost predicate CancelsKnown(q: Queue) {
    forall timer :: CancelLater(timer) in q.tasks ==> timer in q.known
  }

  /** The timer that a step deletes. */
  ghost function Deletes(q: Queue, step: Step): Option<nat>
    requires Enabled(q, step)
  {
    match step
    case Cancel(timer) => Some(timer)
    case RunQueued => if q.tasks[0].CancelLater? then Some(q.tasks[0].timer) else None
    case FinishTimer =>
      var id := q.place.rest[0].timer;
      if q.known[id].canceled || !q.known[id].Repeats() then Some(id) else None
    case _ => None
  }

  /** The step deletes a timer for which another cancellation is queued. */
  ghost predicate DeletesAwaited(q: Queue, step: Step)
    requires Enabled(q, step)
  {
    match Deletes(q, step)
    case Some(id) => CancelLater(id) in if step.RunQueued? then q.tasks[1..] else q.tasks
    case None => false
  }

  /** Some step of this run deletes a timer to which a pointer is left: an entry, or a queued cancellation. */
  ghost predicate DeletesTooEarly(q: Queue, steps: seq<Step>)
    requires CanRun(q, steps)
    decreases |steps|
  {
    steps != [] &&
    (CancelsOutOfReach(q, steps[0]) || DeletesAwaited(q, steps[0]) || DeletesTooEarly(Next(q, steps[0]), steps[1..]))
  }

  lemma TasksOf(q: Queue, step: Step)
    requires Enabled(q, step)
    ensures var r := Next(q, step);
      r.tasks == match step
        case ForeignAdd(timer, when, _) => q.tasks + [InsertLater(timer, when)]
        case ForeignCancel(timer) => q.tasks + [CancelLater(timer)]
        case RunQueued => q.tasks[1..]
        case _ => q.tasks
  {
  }

  lemma AliveUnlessDeleted(q: Queue, step: Step, id: nat)
    requires Enabled(q, step) && Alive(q, id)
    ensures Alive(Next(q, step), id) <==> Deletes(q, step) != Some(id)
  {
  }

  lemma StepKeepsCancels(q: Queue, step: Step)
    requires CancelsAlive(q) && Enabled(q, step)
    ensures CancelsAlive(Next(q, step)) <==> !DeletesAwaited(q, step)
  {
    hide Next, Alive;
    var r := Next(q, step);
    TasksOf(q, step);
    if Deletes(q, step).Some? {
      var id := Deletes(q, step).value;
      assert CancelLater(id) in r.tasks <==> DeletesAwaited(q, step);
      if CancelLater(id) in r.tasks {
        AliveUnlessDeleted(q, step, id);
      }
    }
    forall timer: nat | CancelLater(timer) in r.tasks ensures Alive(r, timer) || Deletes(q, step) == Some(timer) {
      AliveUnlessDeleted(q, step, timer);
    }
  }

  /** A queued cancellation of a deleted timer stays, and stops the queue when its turn comes. */
  lemma DeadCancelStays(q: Queue, step: Step)
    requires CancelsKnown(q) && !CancelsAlive(q) && Enabled(q, step)
    ensures !CancelsAlive(Next(q, step))
  {
    hide Next;
    var timer :| CancelLater(timer) in q.tasks && !Alive(q, timer);
    DeadIsFrozen(q, step, timer);
    TasksOf(q, step);
    if step.RunQueued? {
      assert q.tasks[0] != CancelLater(timer);
    }
    assert CancelLater(timer) in Next(q, step).tasks;
  }

  lemma KeysGrow(q: Queue, step: Step)
    requires Enabled(q, step)
    ensures q.known.Keys <= Next(q, step).known.Keys
  {
  }

  lemma StepKeepsKnown(q: Queue, step: Step)
    requires CancelsKnown(q) && Enabled(q, step)
    ensures CancelsKnown(Next(q, step))
  {
    hide Next;
    TasksOf(q, step);
    KeysGrow(q, step);
  }

  lemma {:induction false} PointersRun(q: Queue, steps: seq<Step>)
    requires Inv(q) && CancelsKnown(q) && CanRun(q, steps)
    ensures PointersAlive(After(q, steps)) <==> PointersAlive(q) && !DeletesTooEarly(q, steps)
    decreases |steps|
  {
    if steps != [] {
      hide Inv, EntriesAlive, CancelsAlive, CancelsKnown, CancelsOutOfReach, DeletesAwaited;
      StepKeeps(q, steps[0]);
      StepKeepsKnown(q, steps[0]);
      if EntriesAlive(q) {
        StepKeepsEntries(q, steps[0]);
      } else {
        DeadStays(q, steps[0]);
      }
      if CancelsAlive(q) {
        StepKeepsCancels(q, steps[0]);
      } else {
        DeadCancelStays(q, steps[0]);
      }
      PointersRun(Next(q, steps[0]), steps[1..]);
    }
  }

  /**
   Exactly the runs that delete no timer to which a pointer is left, in the running batch, in a queued insertion or in
   another queued cancellation, leave no pointer to a deleted timer anywhere.
   */
  lemma PointersAliveIffNoneDeletedEarly(now: int, steps: seq<Step>)
    requires CanRun(Init(now), steps)
    ensures PointersAlive(After(Init(now), steps)) <==> !DeletesTooEarly(Init(now), steps)
  {
    PointersRun(Init(now), steps);
  }

  /** After such a run the loop goes on: what it does next, in the batch or with its tasks, is with a live timer. */
  lemma LiveRunsGoOn(now: int, steps: seq<Step>)
    requires CanRun(Init(now), steps) && !DeletesTooEarly(Init(now), steps)
    ensures var q := After(Init(now), steps);
      && (q.place.Idle? && q.tasks != [] ==> Enabled(q, RunQueued))
      && (q.place.Batch? && q.place.rest != [] ==> Enabled(q, if q.place.ran then FinishTimer else RunTimer))
  {
    PointersRun(Init(now), steps);
    var q := After(Init(now), steps);
    if q.tasks != [] && q.tasks[0].CancelLater? {
      assert q.tasks[0] == CancelLater(q.tasks[0].timer) && q.tasks[0] in q.tasks;
    }
  }

  /** A run that cancels no timer out of its reach, and still leaves the cancellation of a deleted one in the queue. */
  ghost predicate LeavesDeadCancel(q: Queue, steps: seq<Step>, timer: nat) {
    && CanRun(q, steps) && !CancelsTooEarly(q, steps)
    && CancelLater(timer) in After(q, steps).tasks && !Alive(After(q, steps), timer)
  }

  /** The batch that runs a one-shot while its cancellation is queued. */
  const RunAwaited := [Add(1, 5, 0), Tick(2 * MILLISECOND), ForeignCancel(1), BeginRead, RunTimer, FinishTimer]

  /** Two cancellations of one timer. */
  const CancelTwice := [Add(1, 5, 0), ForeignCancel(1), ForeignCancel(1), RunQueued]

  const Inserted5 := Queue(0, {Entry(5, 1)}, map[1 := NewTimer(5, 0)], Armed(MILLISECOND, 0), Idle, [])

  const Expired5 := Inserted5.(now := 2 * MILLISECOND, fd := Pending)

  lemma OneStep(q: Queue, a: Step, steps: seq<Step>)
    requires Enabled(q, a) && CanRun(Next(q, a), steps)
    ensures CanRun(q, [a] + steps) && After(q, [a] + steps) == After(Next(q, a), steps)
  {
    hide Next, Enabled;
    assert ([a] + steps)[1..] == steps;
  }

  lemma AddFirst()
    ensures Enabled(Init(0), Add(1, 5, 0)) && Next(Init(0), Add(1, 5, 0)) == Inserted5
  {
    assert {} + {Entry(5, 1)} == {Entry(5, 1)};
    assert IsLeast({Entry(5, 1)}, Entry(5, 1));
  }

  lemma CancelLast(q: Queue)
    requires Alive(q, 1)
    ensures Enabled(q, ForeignCancel(1)) && Next(q, ForeignCancel(1)) == q.(tasks := q.tasks + [CancelLater(1)])
  {
  }

  /** The only timer, a one-shot, has expired, and its batch runs. */
  lemma OneShotRuns(q: Queue)
    requires q == Expired5.(tasks := [CancelLater(1)])
    ensures CanRun(q, [BeginRead, RunTimer, FinishTimer])
    ensures var r := After(q, [BeginRead, RunTimer, FinishTimer]);
      r.timers == {} && r.place == Batch([], q.now, false) && r.tasks == q.tasks && !Alive(r, 1)
  {
    assert Due(q.timers, q.now) == {Entry(5, 1)};
    ListingIsUnique(Listing({Entry(5, 1)}), [Entry(5, 1)]);
    var b := q.(timers := {}, fd := Disarmed, place := Batch([Entry(5, 1)], q.now, false));
    assert Next(q, BeginRead) == b;
    TwoSteps(b, RunTimer, FinishTimer, []);
    OneStep(q, BeginRead, [RunTimer, FinishTimer] + []);
    assert [BeginRead] + ([RunTimer, FinishTimer] + []) == [BeginRead, RunTimer, FinishTimer];
  }

  lemma RunAwaitedLeaves()
    ensures LeavesDeadCancel(Init(0), RunAwaited, 1)
  {
    hide IsLeast, Listing, Due, Next, Enabled, CancelsTooEarly;
    var batch := [BeginRead, RunTimer, FinishTimer];
    AddFirst();
    ExpireFirst();
    CancelLast(Expired5);
    assert [] + [CancelLater(1)] == [CancelLater(1)];
    OneShotRuns(Next(Expired5, ForeignCancel(1)));
    OneStep(Expired5, ForeignCancel(1), batch);
    TwoSteps(Init(0), Add(1, 5, 0), Tick(2 * MILLISECOND), [ForeignCancel(1)] + batch);
    assert RunAwaited == [Add(1, 5, 0), Tick(2 * MILLISECOND)] + ([ForeignCancel(1)] + batch);
    assert EntriesAlive(After(Init(0), RunAwaited));
    EntriesAliveIffNoneCancelledEarly(0, RunAwaited);
  }

  lemma ExpireFirst()
    ensures Enabled(Inserted5, Tick(2 * MILLISECOND)) && Next(Inserted5, Tick(2 * MILLISECOND)) == Expired5
  {
  }

  lemma SecondIsDead(q: Queue)
    requires q == Inserted5.(tasks := [CancelLater(1), CancelLater(1)])
    ensures Enabled(q, RunQueued)
    ensures var r := Next(q, RunQueued); r.timers == {} && r.place.Idle? && r.tasks == [CancelLater(1)] && !Alive(r, 1)
  {
  }

  lemma CancelTwiceLeaves()
    ensures LeavesDeadCancel(Init(0), CancelTwice, 1)
  {
    hide IsLeast, Listing, Due, Next, Enabled, CancelsTooEarly;
    AddFirst();
    CancelLast(Inserted5);
    var q := Next(Inserted5, ForeignCancel(1));
    CancelLast(q);
    assert [] + [CancelLater(1)] + [CancelLater(1)] == [CancelLater(1), CancelLater(1)];
    SecondIsDead(Next(q, ForeignCancel(1)));
    TwoSteps(q, ForeignCancel(1), RunQueued, []);
    TwoSteps(Init(0), Add(1, 5, 0), ForeignCancel(1), [ForeignCancel(1), RunQueued] + []);
    assert CancelTwice == [Add(1, 5, 0), ForeignCancel(1)] + ([ForeignCancel(1), RunQueued] + []);
    assert EntriesAlive(After(Init(0), CancelTwice));
    EntriesAliveIffNoneCancelledEarly(0, CancelTwice);
  }

  function BatchSteps(n: nat): seq<Step> {
    if n == 0 then [EndRead] else [RunTimer, FinishTimer] + BatchSteps(n - 1)
  }

  /** One timer of a batch: it runs now, once, and the batch moves on. */
  lemma OneTimer(q: Queue)
    requires Inv(q) && BatchIsAlive(q) && q.place.Batch? && !q.place.ran && q.place.rest != []
    ensures Enabled(q, RunTimer) && Enabled(Next(q, RunTimer), FinishTimer)
    ensures BatchIsAlive(Next(Next(q, RunTimer), FinishTimer))
    ensures var r := Next(Next(q, RunTimer), FinishTimer); var id := q.place.rest[0].timer;
      && Inv(r) && r.place == Batch(q.place.rest[1..], q.place.start, false) && r.now == q.now
      && r.known.Keys == q.known.Keys && id in q.known
      && r.known[id].runs == q.known[id].runs + [q.now]
      && forall timer :: timer in q.known && timer != id ==> r.known[timer] == q.known[timer]
  {
    BatchIsDue(q, 0);
    StepKeeps(q, RunTimer);
    StepKeeps(Next(q, RunTimer), FinishTimer);
    RestIsAlive(q);
  }

  lemma RestIsAlive(q: Queue)
    requires Inv(q) && BatchIsAlive(q) && Enabled(q, RunTimer) && Enabled(Next(q, RunTimer), FinishTimer)
    ensures BatchIsAlive(Next(Next(q, RunTimer), FinishTimer))
  {
    var r := Next(Next(q, RunTimer), FinishTimer);
    forall m | 0 <= m < |r.place.rest| ensures Alive(r, r.place.rest[m].timer) {
      assert r.place.rest[m] == q.place.rest[m + 1];
    }
  }

  lemma HoldsFirst(rest: seq<Entry>, timer: nat)
    requires rest != []
    ensures Holds(rest, timer) <==> rest[0].timer == timer || Holds(rest[1..], timer)
  {
    if Holds(rest[1..], timer) {
      var k :| 0 <= k < |rest[1..]| && rest[1..][k].timer == timer;
      assert rest[k + 1].timer == timer;
    }
    if Holds(rest, timer) && rest[0].timer != timer {
      var k :| 0 <= k < |rest| && rest[k].timer == timer;
      assert rest[1..][k - 1].timer == timer;
    }
  }

  lemma TwoSteps(q: Queue, a: Step, b: Step, steps: seq<Step>)
    requires Enabled(q, a) && Enabled(Next(q, a), b) && CanRun(Next(Next(q, a), b), steps)
    ensures CanRun(q, [a, b] + steps) && After(q, [a, b] + steps) == After(Next(Next(q, a), b), steps)
  {
    var all := [a, b] + steps;
    assert all[1..] == [b] + steps && all[1..][1..] == steps;
  }

  lemma {:induction false} BatchRuns(q: Queue, timer: nat)
    requires Inv(q) && BatchIsAlive(q) && q.place.Batch? && !q.place.ran && timer in q.known
    ensures CanRun(q, BatchSteps(|q.place.rest|))
    ensures var r := After(q, BatchSteps(|q.place.rest|));
      && r.place.Idle?
      && timer in r.known
      && r.known[timer].runs == q.known[timer].runs + if Holds(q.place.rest, timer) then [q.now] else []
    decreases |q.place.rest|
  {
    if q.place.rest == [] {
      assert BatchSteps(0)[1..] == [];
    } else {
      MoreRuns(q, timer);
    }
  }

  lemma {:induction false} MoreRuns(q: Queue, timer: nat)
    requires Inv(q) && BatchIsAlive(q) && q.place.Batch? && !q.place.ran && timer in q.known && q.place.rest != []
    ensures CanRun(q, BatchSteps(|q.place.rest|))
    ensures var r := After(q, BatchSteps(|q.place.rest|));
      && r.place.Idle?
      && timer in r.known
      && r.known[timer].runs == q.known[timer].runs + if Holds(q.place.rest, timer) then [q.now] else []
    decreases |q.place.rest|, 0
  {
    hide Inv, BatchIsAlive, Next, Enabled, Holds;
    var rest := q.place.rest;
    DifferentFirst(q);
    OneTimer(q);
    var r := Next(Next(q, RunTimer), FinishTimer);
    BatchRuns(r, timer);
    TwoSteps(q, RunTimer, FinishTimer, BatchSteps(|rest| - 1));
    HoldsFirst(rest, timer);
  }

  lemma DifferentFirst(q: Queue)
    requires Inv(q) && q.place.Batch? && q.place.rest != []
    ensures !Holds(q.place.rest[1..], q.place.rest[0].timer)
  {
    var rest := q.place.rest;
    forall k | 0 <= k < |rest[1..]| ensures rest[1..][k].timer != rest[0].timer {
      assert rest[1..][k] == rest[k + 1];
    }
  }

  /** The steps of one call of `handleRead` whose callbacks leave the queue alone. */
  function ReadSteps(n: nat): seq<Step> {
    [BeginRead] + BatchSteps(n)
  }

  /** No timer is forgotten: once its time and the clamp have passed, the descriptor is readable and the timer runs. */
  lemma DueTimerRuns(now: int, steps: seq<Step>, e: Entry, to: int)
    requires CanRun(Init(now), steps) && !CancelsTooEarly(Init(now), steps)
    requires var q := After(Init(now), steps);
      q.place.Idle? && e in q.timers && e.when <= to && q.now + MILLISECOND <= to
    ensures var q := Next(After(Init(now), steps), Tick(to));
      var read := ReadSteps(|Listing(Due(q.timers, to))|);
      && CanRun(q, read)
      && e.timer in q.known && e.timer in After(q, read).known
      && After(q, read).known[e.timer].runs == q.known[e.timer].runs + [to]
  {
    var p := After(Init(now), steps);
    RunKeeps(Init(now), steps);
    EntriesRun(Init(now), steps);
    var q := Next(p, Tick(to));
    StepKeeps(p, Tick(to));
    StepKeepsEntries(p, Tick(to));
    assert Queued(q, e) || Gone(q, e);
    var b := Next(q, BeginRead);
    BeginKeeps(q);
    StepKeepsEntries(q, BeginRead);
    assert e in Elems(b.place.rest);
    var k :| 0 <= k < |b.place.rest| && b.place.rest[k] == e;
    BatchRuns(b, e.timer);
    var read := ReadSteps(|b.place.rest|);
    assert read[1..] == BatchSteps(|b.place.rest|);
  }
}
