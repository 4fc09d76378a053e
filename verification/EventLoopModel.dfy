/**
 The functor queue and the eventfd wakeup of one event loop, as interleaved steps of the
 loop thread and any number of other threads.

 A step is one access to shared state: a push under the lock, the store of a flag, the swap,
 one read or write of the eventfd.
 */
module EventLoopModel {

  // An eventfd counter never exceeds this; a write that would is refused with EAGAIN.
  const EVENTFD_MAX: nat := 0xFFFF_FFFF_FFFF_FFFE

  type Thread = nat
  type Functor = nat

  // Where the loop thread is.  User code of the loop thread runs in Outside (before the first
  // poll), Dispatching and Running.
  datatype Place =
    | Outside
    | Testing                                   // while (!quit_)
    | Polling                                   // at most kPollTimeMs, ten seconds
    | Dispatching                               // over activeChannels_
    | Swapping                                  // callingPendingFunctors_ is set
    | Running(batch: seq<Functor>, next: nat)
    | Ended

  datatype Loop = Loop(
    pending: seq<Functor>,
    quit: bool,
    calling: bool,          // callingPendingFunctors_
    counter: nat,           // of the eventfd
    place: Place,
    ownerOwes: bool,        // the loop thread is between its push and its write
    owing: set<Thread>,     // threads between a push or quit_ = true and their write
    queued: seq<Functor>,   // every functor ever pushed, in lock order
    executed: seq<Functor>)

  datatype Step =
    | Enter
    | TestQuit
    | PollReturns
    | ReadEventfd
    | BeginFunctors
    | Swap
    | RunFunctor
    | EndFunctors
    | OwnerQueues(f: Functor)
    | OwnerQuits
    | OwnerWrites
    | QueuesFrom(t: Thread, f: Functor)
    | QuitsFrom(t: Thread)
    | WritesFrom(t: Thread)

  predicate OwnerStep(s: Step) {
    !s.QueuesFrom? && !s.QuitsFrom? && !s.WritesFrom?
  }

  predicate Enabled(l: Loop, s: Step) {
    // queueInLoop does not return before its wakeup write
    && (OwnerStep(s) && !s.OwnerWrites? ==> !l.ownerOwes)
    && match s
       case Enter => l.place == Outside
       case TestQuit => l.place == Testing
       case PollReturns => l.place == Polling
       case ReadEventfd => l.place == Dispatching
       case BeginFunctors => l.place == Dispatching
       case Swap => l.place == Swapping
       case RunFunctor => l.place.Running? && l.place.next < |l.place.batch|
       case EndFunctors => l.place.Running? && l.place.next == |l.place.batch|
       case OwnerQueues(_) => l.place == Outside || l.place == Dispatching || l.place.Running?
       case OwnerQuits => l.place == Outside || l.place == Dispatching || l.place.Running?
       case OwnerWrites => l.ownerOwes
       case QueuesFrom(t, _) => t !in l.owing
       case QuitsFrom(t) => t !in l.owing
       case WritesFrom(t) => t in l.owing
  }

  function Written(counter: nat): nat {
    if counter < EVENTFD_MAX then counter + 1 else counter
  }

  function Push(l: Loop, f: Functor): Loop {
    l.(pending := l.pending + [f], queued := l.queued + [f])
  }

  function Next(l: Loop, s: Step): Loop
    requires Enabled(l, s)
  {
    match s
    case Enter => l.(place := Testing)
    case TestQuit => l.(place := if l.quit then Ended else Polling)
    case PollReturns => l.(place := Dispatching)
    case ReadEventfd => l.(counter := 0)
    case BeginFunctors => l.(calling := true, place := Swapping)
    case Swap => l.(place := Running(l.pending, 0), pending := [])
    case RunFunctor =>
      l.(executed := l.executed + [l.place.batch[l.place.next]], place := l.place.(next := l.place.next + 1))
    case EndFunctors => l.(calling := false, place := Testing)
    case OwnerQueues(f) => Push(l, f).(ownerOwes := l.calling)
    case OwnerQuits => l.(quit := true)
    case OwnerWrites => l.(counter := Written(l.counter), ownerOwes := false)
    case QueuesFrom(t, f) => Push(l, f).(owing := l.owing + {t})
    case QuitsFrom(t) => l.(quit := true, owing := l.owing + {t})
    case WritesFrom(t) => l.(counter := Written(l.counter), owing := l.owing - {t})
  }

  predicate ValidRun(l: Loop, steps: seq<Step>)
    decreases |steps|
  {
    steps == [] || (Enabled(l, steps[0]) && ValidRun(Next(l, steps[0]), steps[1..]))
  }

  function Run(l: Loop, steps: seq<Step>): Loop
    requires ValidRun(l, steps)
    decreases |steps|
  {
    if steps == [] then l else Run(Next(l, steps[0]), steps[1..])
  }

  const Fresh := Loop([], false, false, 0, Outside, false, {}, [], [])
}
