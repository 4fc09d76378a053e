/**
 The timer queue of one event loop as a step machine.

 Time is in integer microseconds.  Timers live in a heap keyed by address; a freed
 address may be handed out again.  Every `assert`, every "n != 1" and every failed
 set insertion of the source, and every access to freed memory, raises `fault`, so
 that the functions below are total and their unreachability can be proved.
 */
module TimerModel {

  // The sentinel address used by getExpired; no timer is allocated there.
  const UINTPTR_MAX: nat := 0xFFFF_FFFF_FFFF_FFFF

  // howMuchTimeFromNow never arms the timerfd closer than this.
  const MIN_DELAY := 100

  // `delta` is the interval in microseconds; it may round to 0 for a repeating timer.
  datatype Timer = Timer(expiration: int, delta: nat, repeat: bool, sequence: nat)

  // TimerQueue::Entry and TimerQueue::ActiveTimer (also the contents of a TimerId).
  datatype Entry = Entry(when: int, timer: nat)
  datatype Id = Id(timer: nat, sequence: nat)

  datatype TimerFd = Disarmed | Armed(deadline: int, armedAt: int) | Readable

  // `Calling` lasts from getExpired to reset; `next` is the entry whose callback runs next.
  datatype Phase = Quiet | Calling(batch: seq<Entry>, next: nat, now: int)

  datatype Queue = Queue(
    heap: map<nat, Timer>,  // allocated timers
    created: nat,           // Timer::s_numCreated_
    freed: seq<nat>,        // sequence numbers, in the order of deletion
    adding: set<nat>,       // timers whose addTimerInLoop has not run yet
    timers: set<Entry>,     // timers_
    active: set<Id>,        // activeTimers_
    canceling: set<Id>,     // cancelingTimers_
    phase: Phase,           // callingExpiredTimers_ and the local `expired`
    fd: TimerFd,
    clock: int,
    ran: seq<Id>,           // callbacks run so far
    fault: bool)

  predicate Valid(t: int) {
    t > 0
  }

  // The order of std::set<std::pair<Timestamp, Timer*>>.
  predicate Before(e: Entry, f: Entry) {
    e.when < f.when || (e.when == f.when && e.timer < f.timer)
  }

  ghost predicate IsFirst(e: Entry, s: set<Entry>) {
    e in s && forall f :: f in s && f != e ==> Before(e, f)
  }

  lemma {:induction false} FirstExists(s: set<Entry>)
    requires s != {}
    ensures exists e :: IsFirst(e, s)
  {
    var x :| x in s;
    if s == {x} {
      assert IsFirst(x, s);
    } else {
      FirstExists(s - {x});
      var y :| IsFirst(y, s - {x});
      assert forall f :: f in s && f != x ==> f in s - {x};
      if Before(x, y) {
        assert IsFirst(x, s);
      } else {
        assert IsFirst(y, s);
      }
    }
  }

  // *timers_.begin()
  ghost function First(s: set<Entry>): (e: Entry)
    requires s != {}
    ensures IsFirst(e, s)
  {
    FirstExists(s);
    var e :| IsFirst(e, s);
    e
  }

  ghost predicate StrictlySorted(s: seq<Entry>) {
    forall i, j :: 0 <= i < j < |s| ==> Before(s[i], s[j])
  }

  // The elements of a set in the order in which std::set iterates over them.
  ghost function InOrder(s: set<Entry>): (r: seq<Entry>)
    ensures StrictlySorted(r)
    ensures forall e :: e in r <==> e in s
    decreases s
  {
    if s == {} then [] else [First(s)] + InOrder(s - {First(s)})
  }

  function Max(a: int, b: int): int {
    if a < b then b else a
  }

  ghost function IdOf(q: Queue, a: nat): Id
    requires a in q.heap
  {
    Id(a, q.heap[a].sequence)
  }

  ghost function Batch(q: Queue): seq<Entry> {
    if q.phase.Calling? then q.phase.batch else []
  }

  // delete timer
  ghost function Free(q: Queue, a: nat): Queue {
    if a !in q.heap then q.(fault := true)
    else q.(heap := q.heap - {a}, freed := q.freed + [q.heap[a].sequence])
  }

  ghost function FreeAll(q: Queue, batch: seq<Entry>): Queue
    decreases |batch|
  {
    if batch == [] then q else FreeAll(Free(q, batch[0].timer), batch[1..])
  }

  // ~TimerQueue deletes what is in timers_.
  ghost function Destructed(q: Queue): Queue {
    FreeAll(q, InOrder(q.timers))
  }

  // resetTimerfd; timerfd_settime also clears an unread expiration.
  ghost function Arm(q: Queue, when: int): Queue {
    q.(fd := Armed(q.clock + Max(when - q.clock, MIN_DELAY), q.clock))
  }

  ghost predicate EarliestChanged(q: Queue, a: nat)
    requires a in q.heap
  {
    q.timers == {} || q.heap[a].expiration < First(q.timers).when
  }

  // TimerQueue::insert
  ghost function Insert(q: Queue, a: nat): Queue {
    if a !in q.heap || |q.timers| != |q.active| then q.(fault := true) else
    var e := Entry(q.heap[a].expiration, a);
    if e in q.timers || IdOf(q, a) in q.active then q.(fault := true)
    else q.(timers := q.timers + {e}, active := q.active + {IdOf(q, a)})
  }

  // TimerQueue::addTimerInLoop
  ghost function AddInLoop(q: Queue, a: nat): Queue {
    var q := q.(adding := q.adding - {a});
    if a !in q.heap then q.(fault := true)
    else if EarliestChanged(q, a) then Arm(Insert(q, a), q.heap[a].expiration)
    else Insert(q, a)
  }

  // TimerQueue::cancelInLoop; address 0 is nullptr.
  ghost function CancelInLoop(q: Queue, id: Id): Queue {
    if id.timer == 0 then q
    else if id in q.active then
      if id.timer !in q.heap then q.(fault := true) else
      var e := Entry(q.heap[id.timer].expiration, id.timer);
      Free(q.(timers := q.timers - {e}, active := q.active - {id}, fault := q.fault || e !in q.timers), id.timer)
    else if q.phase.Calling? then q.(canceling := q.canceling + {id})
    else q
  }

  ghost function Expired(q: Queue, now: int): set<Entry> {
    if !Valid(now) then {} else set e | e in q.timers && Before(e, Entry(now, UINTPTR_MAX))
  }

  // readTimerfd, getExpired and the preparation of the batch in TimerQueue::handleRead.
  // A read of a timerfd that is not readable fails with EAGAIN and changes nothing.
  ghost function BeginRead(q: Queue): Queue {
    var x := Expired(q, q.clock);
    var ids := set e | e in x && e.timer in q.heap :: IdOf(q, e.timer);
    q.(fd := if q.fd.Readable? then Disarmed else q.fd,
       timers := q.timers - x,
       active := q.active - ids,
       canceling := {},
       phase := Calling(InOrder(x), 0, q.clock),
       fault := q.fault || exists e :: e in x && (e.timer !in q.heap || IdOf(q, e.timer) !in q.active))
  }

  // it.second->run(); an exception ends the callback and the loop goes on.
  ghost function RunNext(q: Queue): Queue
    requires q.phase.Calling? && q.phase.next < |q.phase.batch|
  {
    var a := q.phase.batch[q.phase.next].timer;
    if a !in q.heap then q.(fault := true)
    else q.(ran := q.ran + [IdOf(q, a)], phase := q.phase.(next := q.phase.next + 1))
  }

  // Timer::restart, for a repeating timer and a valid time
  function Restarted(t: Timer, now: int): Timer {
    t.(expiration := now + t.delta)
  }

  // One iteration of the loop in TimerQueue::reset
  ghost function ResetOne(q: Queue, e: Entry, now: int): Queue {
    var a := e.timer;
    if a !in q.heap then q.(fault := true)
    else if q.heap[a].repeat && IdOf(q, a) !in q.canceling then
      Insert(q.(heap := q.heap[a := Restarted(q.heap[a], now)]), a)
    else Free(q, a)
  }

  ghost function ResetUpTo(q: Queue, batch: seq<Entry>, now: int, i: nat): Queue
    requires i <= |batch|
  {
    if i == 0 then q else ResetOne(ResetUpTo(q, batch, now, i - 1), batch[i - 1], now)
  }

  // The re-arming at the end of TimerQueue::reset
  ghost function Rearm(q: Queue): Queue {
    if q.timers == {} then q
    else if First(q.timers).timer !in q.heap then q.(fault := true)
    else
      var next := q.heap[First(q.timers).timer].expiration;
      if Valid(next) then Arm(q, next) else q
  }

  // callingExpiredTimers_ = false and TimerQueue::reset
  ghost function EndRead(q: Queue): Queue
    requires q.phase.Calling?
  {
    var quiet := q.(phase := Quiet);
    if !Valid(q.phase.now) then quiet
    else Rearm(ResetUpTo(quiet, q.phase.batch, q.phase.now, |q.phase.batch|))
  }

  // new Timer(...) in addTimer, on any thread
  ghost function Create(q: Queue, a: nat, when: int, delta: nat, repeat: bool): Queue {
    q.(heap := q.heap[a := Timer(when, delta, repeat, q.created)],
       created := q.created + 1,
       adding := q.adding + {a})
  }

  // The callbacks of a batch are arbitrary Create, Add and Cancel steps between the RunNext steps.
  datatype Step =
    | NewTimer(a: nat, when: int, delta: nat, repeat: bool)
    | Add(a: nat)
    | Cancel(id: Id)
    | Begin
    | RunCallback
    | End
    | Tick(t: int)
    | Fire

  // An allocator returns a free address, time does not run backwards or past the deadline of
  // an armed timerfd, and the loop thread finishes a batch before it starts the next one.
  ghost predicate Enabled(q: Queue, s: Step) {
    match s
    case NewTimer(a, _, _, _) => 0 < a < UINTPTR_MAX && a !in q.heap
    case Add(a) => a in q.adding
    case Cancel(_) => true
    case Begin => q.phase.Quiet?
    case RunCallback => q.phase.Calling? && q.phase.next < |q.phase.batch|
    case End => q.phase.Calling? && q.phase.next == |q.phase.batch|
    case Tick(t) => q.clock <= t && (q.fd.Armed? ==> t <= q.fd.deadline)
    case Fire => q.fd.Armed?
  }

  ghost function Next(q: Queue, s: Step): Queue
    requires Enabled(q, s)
  {
    match s
    case NewTimer(a, when, delta, repeat) => Create(q, a, when, delta, repeat)
    case Add(a) => AddInLoop(q, a)
    case Cancel(id) => CancelInLoop(q, id)
    case Begin => BeginRead(q)
    case RunCallback => RunNext(q)
    case End => EndRead(q)
    case Tick(t) => q.(clock := t)
    case Fire => q.(fd := Readable)
  }

  ghost predicate ValidRun(q: Queue, steps: seq<Step>)
    decreases |steps|
  {
    steps == [] || (Enabled(q, steps[0]) && ValidRun(Next(q, steps[0]), steps[1..]))
  }

  ghost function Run(q: Queue, steps: seq<Step>): Queue
    requires ValidRun(q, steps)
    decreases |steps|
  {
    if steps == [] then q else Run(Next(q, steps[0]), steps[1..])
  }

  ghost predicate Initial(q: Queue) {
    && q.heap == map[] && q.created == 0 && q.freed == [] && q.adding == {}
    && q.timers == {} && q.active == {} && q.canceling == {}
    && q.phase == Quiet && q.fd == Disarmed && Valid(q.clock) && q.ran == [] && !q.fault
  }
}
