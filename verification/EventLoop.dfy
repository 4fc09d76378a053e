/** The event loop in the form of the source; `history` is the run of the step machine behind its state. */
module EventLoops {
  import opened EventLoopModel
  import opened EventLoopTheorems
  import opened EventLoopHistory

  // What may happen while user code of the loop thread runs: its own calls and other threads' steps.
  predicate UserStep(s: Step) {
    s.OwnerQueues? || s.OwnerQuits? || !OwnerStep(s)
  }

  class EventLoop {
    var pending: seq<Functor>
    var quit: bool
    var calling: bool
    var counter: nat
    var place: Place
    var ownerOwes: bool
    var owing: set<Thread>
    ghost var queued: seq<Functor>
    ghost var executed: seq<Functor>
    ghost var history: seq<Step>

    ghost function Abs(): Loop
      reads this
    {
      Loop(pending, quit, calling, counter, place, ownerOwes, owing, queued, executed)
    }

    ghost predicate Valid()
      reads this
    {
      ValidRun(Fresh, history) && Abs() == Run(Fresh, history)
    }

    constructor ()
      ensures Valid() && history == [] && Abs() == Fresh
    {
      pending, quit, calling, counter, place := [], false, false, 0, Outside;
      ownerOwes, owing, queued, executed, history := false, {}, [], [], [];
    }

    // Appends the step just taken to the history.
    ghost method Record(s: Step, before: Loop)
      requires ValidRun(Fresh, history) && before == Run(Fresh, history)
      requires Enabled(before, s) && Abs() == Next(before, s)
      modifies this`history
      ensures Valid() && history == old(history) + [s]
    {
      RunSnoc(Fresh, history, s);
      history := history + [s];
    }

    // EventLoop::wakeup.  A write refused with EAGAIN leaves a positive counter.
    method Wakeup(s: Step)
      requires Valid() && Enabled(Abs(), s) && (s.OwnerWrites? || s.WritesFrom?)
      modifies this`counter, this`ownerOwes, this`owing, this`history
      ensures Valid() && history == old(history) + [s] && Abs() == Next(old(Abs()), s) && counter > 0
    {
      ghost var l := Abs();
      if counter < EVENTFD_MAX {
        counter := counter + 1;
      }
      if s.OwnerWrites? {
        ownerOwes := false;
      } else {
        owing := owing - {s.t};
      }
      Record(s, l);
    }

    // EventLoop::queueInLoop on the loop thread
    method QueueInLoop(f: Functor)
      requires Valid() && Enabled(Abs(), OwnerQueues(f))
      modifies this
      ensures Valid() && !ownerOwes
      ensures history == old(history) + [OwnerQueues(f)] + if calling then [OwnerWrites] else []
      ensures var l := Next(old(Abs()), OwnerQueues(f)); Abs() == if l.ownerOwes then Next(l, OwnerWrites) else l
    {
      ghost var l := Abs();
      pending, queued := pending + [f], queued + [f];
      ownerOwes := calling;
      Record(OwnerQueues(f), l);
      if calling {
        Wakeup(OwnerWrites);
      }
    }

    // EventLoop::quit on the loop thread
    method Quit()
      requires Valid() && Enabled(Abs(), OwnerQuits)
      modifies this`quit, this`history
      ensures Valid() && history == old(history) + [OwnerQuits] && Abs() == Next(old(Abs()), OwnerQuits)
      ensures quit
    {
      ghost var l := Abs();
      quit := true;
      Record(OwnerQuits, l);
    }

    // One atomic step of another thread inside queueInLoop or quit
    method OtherThread(s: Step)
      requires Valid() && !OwnerStep(s) && Enabled(Abs(), s)
      modifies this
      ensures Valid() && history == old(history) + [s] && Abs() == Next(old(Abs()), s)
      ensures quit <==> old(quit) || s.QuitsFrom?
      ensures s.t in owing <==> !s.WritesFrom?
    {
      ghost var l := Abs();
      match s {
        case QueuesFrom(t, f) =>
          pending, queued, owing := pending + [f], queued + [f], owing + {t};
          Record(s, l);
        case QuitsFrom(t) =>
          quit, owing := true, owing + {t};
          Record(s, l);
        case WritesFrom(t) =>
          Wakeup(s);
      }
    }

    // User code of the loop thread together with whatever other threads do meanwhile;
    // a step that is not possible when its turn comes does not happen.
    method UserCode(script: seq<Step>)
      requires Valid() && !ownerOwes && (place.Dispatching? || place.Running?)
      requires forall s :: s in script ==> UserStep(s)
      modifies this
      ensures Valid() && !ownerOwes && old(history) <= history
      ensures place == old(place) && calling == old(calling) && executed == old(executed) && old(queued) <= queued
    {
      for i := 0 to |script|
        invariant Valid() && !ownerOwes && old(history) <= history
        invariant place == old(place) && calling == old(calling) && executed == old(executed) && old(queued) <= queued
      {
        assert UserStep(script[i]);
        match script[i] {
          case OwnerQueues(f) => QueueInLoop(f);
          case OwnerQuits => Quit();
          case QueuesFrom(t, _) => if t !in owing { OtherThread(script[i]); }
          case QuitsFrom(t) => if t !in owing { OtherThread(script[i]); }
          case WritesFrom(t) => if t in owing { OtherThread(script[i]); }
        }
      }
    }

    // Other threads while the loop thread is in poll
    method Blocked(waiting: seq<Step>)
      requires Valid() && place == Polling && !ownerOwes && forall s :: s in waiting ==> !OwnerStep(s)
      modifies this
      ensures Valid() && !ownerOwes && old(history) <= history
      ensures place == Polling && calling == old(calling) && executed == old(executed) && old(queued) <= queued
    {
      for i := 0 to |waiting|
        invariant Valid() && !ownerOwes && old(history) <= history
        invariant place == Polling && calling == old(calling) && executed == old(executed) && old(queued) <= queued
      {
        assert !OwnerStep(waiting[i]);
        if waiting[i].WritesFrom? <==> waiting[i].t in owing {
          OtherThread(waiting[i]);
        }
      }
    }

    // callingPendingFunctors_ = true and the swap under the lock
    method SwapFunctors() returns (functors: seq<Functor>)
      requires Valid() && place == Dispatching && !ownerOwes
      modifies this
      ensures Valid() && history == old(history) + [BeginFunctors, Swap]
      ensures functors == old(pending) && place == Running(functors, 0) && calling && !ownerOwes
      ensures pending == [] && executed == old(executed) && queued == old(queued)
    {
      ghost var l := Abs();
      calling, place := true, Swapping;
      Record(BeginFunctors, l);
      ghost var m := Abs();
      functors := pending;
      place, pending := Running(functors, 0), [];
      Record(Swap, m);
    }

    // functor(), whatever it does and whether or not it throws
    method RunOne(script: seq<Step>)
      requires Valid() && Enabled(Abs(), RunFunctor) && forall s :: s in script ==> UserStep(s)
      modifies this
      ensures Valid() && !ownerOwes && old(history) <= history
      ensures old(place).Running? && place == old(place).(next := old(place).next + 1) && calling == old(calling)
      ensures executed == old(executed) + [place.batch[place.next - 1]]
    {
      ghost var l := Abs();
      executed, place := executed + [place.batch[place.next]], place.(next := place.next + 1);
      Record(RunFunctor, l);
      UserCode(script);
    }

    method EndFunctors()
      requires Valid() && Enabled(Abs(), EventLoopModel.EndFunctors)
      modifies this
      ensures Valid() && history == old(history) + [EventLoopModel.EndFunctors]
      ensures Abs() == Next(old(Abs()), EventLoopModel.EndFunctors)
      ensures queued == executed + pending
    {
      ghost var l := Abs();
      calling, place := false, Testing;
      Record(EventLoopModel.EndFunctors, l);
      Pending();
    }

    // EventLoop::doPendingFunctors.  It runs exactly what was pending at the swap, in order, and
    // leaves what was queued meanwhile for the next iteration.
    method DoPendingFunctors(script: Functor -> seq<Step>)
      requires Valid() && place == Dispatching && !ownerOwes
      requires forall f, s :: s in script(f) ==> UserStep(s)
      modifies this
      ensures Valid() && place == Testing && !ownerOwes && old(history) <= history
      ensures executed == old(executed) + old(pending)
      ensures queued == executed + pending
    {
      var functors := SwapFunctors();
      var i := 0;
      while i < |functors|
        invariant 0 <= i <= |functors| && Valid() && !ownerOwes && old(history) <= history
        invariant place == Running(functors, i) && calling
        invariant executed == old(executed) + functors[..i]
      {
        assert functors[..i + 1] == functors[..i] + [functors[i]];
        RunOne(script(functors[i]));
        i := i + 1;
      }
      assert functors[..i] == functors;
      EndFunctors();
    }

    // EventLoop::handleRead on the eventfd
    method HandleRead()
      requires Valid() && Enabled(Abs(), ReadEventfd)
      modifies this`counter, this`history
      ensures Valid() && history == old(history) + [ReadEventfd] && Abs() == Next(old(Abs()), ReadEventfd)
      ensures counter == 0
    {
      ghost var l := Abs();
      counter := 0;
      Record(ReadEventfd, l);
    }

    // One iteration of EventLoop::loop, from one test of quit_ to the next.
    method Iterate(waiting: seq<Step>, wakeup: bool, dispatch: seq<Step>, script: Functor -> seq<Step>)
      returns (polled: bool)
      requires Valid() && place == Testing && !ownerOwes
      requires forall s :: s in waiting ==> !OwnerStep(s)
      requires forall s :: s in dispatch ==> UserStep(s)
      requires forall f, s :: s in script(f) ==> UserStep(s)
      modifies this
      ensures Valid() && old(history) <= history && !ownerOwes
      ensures polled <==> !old(quit)
      ensures place == if polled then Testing else Ended
      ensures polled ==> old(queued) <= executed
      ensures !polled ==> history == old(history) + [TestQuit]
    {
      ghost var l := Abs();
      polled := !quit;
      place := if quit then Ended else Polling;
      Record(TestQuit, l);
      if polled {
        Poll(waiting);
        if wakeup {
          HandleRead();
        }
        UserCode(dispatch);
        Pending();
        DoPendingFunctors(script);
      }
    }

    // poller_->poll
    method Poll(waiting: seq<Step>)
      requires Valid() && place == Polling && !ownerOwes && forall s :: s in waiting ==> !OwnerStep(s)
      modifies this
      ensures Valid() && !ownerOwes && old(history) <= history
      ensures place == Dispatching && executed == old(executed) && old(queued) <= queued
    {
      Blocked(waiting);
      ghost var m := Abs();
      place := Dispatching;
      Record(PollReturns, m);
    }

    lemma Pending()
      requires Valid() && !place.Running?
      ensures queued == executed + pending
    {
      ExactlyOnceInOrder(Fresh, history);
    }
  }
}
